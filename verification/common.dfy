/** Shared vocabulary of the trading simulator: optional values, request
    fields as the HTTP body delivers them, trade sides and the answer of the
    price lookup. */
module Common {

  datatype Option<T> = None | Some(value: T)

  /** The outcome of an operation that can be refused with an error. */
  datatype Result<T, E> = Ok(value: T) | Err(error: E)

  type CoinId = string
  type UserId = string
  type TradeId = nat

  /** Buy or sell, the `type` of a trade, an order or a strategy action. */
  datatype Side = Buy | Sell

  /** The answer of the price lookup for one coin: a number, `undefined`
      (the upstream answer had no entry for the coin) or a thrown error. */
  datatype Quote = Price(value: real) | Undefined | Failed

  /** `if (!price)` treats `undefined` and `0` alike as "no price". */
  predicate Usable(q: Quote) {
    q.Price? && q.value != 0.0
  }

  /** A text field of a request body is truthy when present and non-empty. */
  predicate GivenText(s: Option<string>) {
    s.Some? && s.value != ""
  }

  /** A number field of a request body is truthy when present and non-zero. */
  predicate GivenNumber(x: Option<real>) {
    x.Some? && x.value != 0.0
  }

  /** Parses the `type` field of a trade request: only "buy" and "sell" name a side. */
  function SideOf(s: string): (r: Option<Side>)
    ensures r == Some(Buy) <==> s == "buy"
    ensures r == Some(Sell) <==> s == "sell"
  {
    if s == "buy" then Some(Buy) else if s == "sell" then Some(Sell) else None
  }

  /** The portfolio history keeps the 50 most recent entries. */
  const HistoryLimit: nat := 50

  /** Default balance of a new user's portfolio. */
  const StartingBalance: real := 100000.0

  /** Milliseconds in a day. */
  const DayMs: int := 86400000

  function Min(a: real, b: real): real { if a <= b then a else b }
  function Max(a: real, b: real): real { if a <= b then b else a }

  /** Sum of a sequence of amounts, left to right, as a JS `+=` loop adds them. */
  function Sum(xs: seq<real>): real {
    if xs == [] then 0.0 else Sum(xs[..|xs| - 1]) + xs[|xs| - 1]
  }

  lemma {:induction false} SumAppend(xs: seq<real>, ys: seq<real>)
    ensures Sum(xs + ys) == Sum(xs) + Sum(ys)
  {
    if ys == [] {
      assert xs + ys == xs;
    } else {
      var zs := xs + ys;
      assert zs[..|zs| - 1] == xs + ys[..|ys| - 1];
      SumAppend(xs, ys[..|ys| - 1]);
    }
  }

  /** Replacing one addend changes the sum by the difference. */
  lemma {:induction false} SumUpdate(xs: seq<real>, k: nat, x: real)
    requires k < |xs|
    ensures Sum(xs[k := x]) == Sum(xs) - xs[k] + x
  {
    var n := |xs|;
    if k == n - 1 {
      assert xs[k := x][..n - 1] == xs[..n - 1];
    } else {
      assert xs[k := x][..n - 1] == xs[..n - 1][k := x];
      SumUpdate(xs[..n - 1], k, x);
    }
  }

  /** `list.filter(id => id.toString() !== x)`. */
  function Without(xs: seq<UserId>, x: UserId): (r: seq<UserId>)
    ensures forall y :: y in r <==> y in xs && y != x
    ensures |r| <= |xs|
  {
    if xs == [] then []
    else Without(xs[..|xs| - 1], x) + (if xs[|xs| - 1] != x then [xs[|xs| - 1]] else [])
  }

  /** Filtering out an id that is not there changes nothing. */
  lemma {:induction false} WithoutAbsent(xs: seq<UserId>, x: UserId)
    requires x !in xs
    ensures Without(xs, x) == xs
  {
    if xs != [] {
      var init, last := xs[..|xs| - 1], xs[|xs| - 1];
      assert xs == init + [last];
      assert x !in init && last != x;
      WithoutAbsent(init, x);
      assert Without(xs, x) == Without(init, x) + [last];
    }
  }

  /** Filtering out an id just pushed onto a list without it gives the list back. */
  lemma UnappendAbsent(xs: seq<UserId>, x: UserId)
    requires x !in xs
    ensures Without(xs + [x], x) == xs
  {
    assert (xs + [x])[..|xs|] == xs;
    WithoutAbsent(xs, x);
  }

  /** The last element of a concatenation with a non-empty second part, and what precedes it. */
  lemma AppendSnoc<T>(first: seq<T>, second: seq<T>)
    requires second != []
    ensures (first + second)[..|first + second| - 1] == first + second[..|second| - 1]
    ensures (first + second)[|first + second| - 1] == second[|second| - 1]
  {
  }

  /** A prefix one longer is the prefix and the next element. */
  lemma TakeOneMore<T>(s: seq<T>, k: nat)
    requires k < |s|
    ensures s[..k + 1] == s[..k] + [s[k]]
  {
  }
}
