/**
 * The retry loop of add_expense that asks for an amount until it gets a
 * number strictly greater than zero. The lines the user types are given as
 * an abstract stream of already-converted tokens.
 */
module AmountInput {
  import opened Wrappers

  /** What converting one typed line to a float gives: a number, or a ValueError. */
  datatype Token = Number(value: real) | NotANumber

  /** Why a line was refused; each reason has its own message in the source. */
  datatype Rejection = NotNumeric | NotPositive

  datatype Verdict = Accept(amount: real) | Reject(reason: Rejection)

  /** One pass of the loop: a non-number or a number not above zero is refused. */
  function Check(t: Token): (v: Verdict) {
    match t
    case NotANumber => Reject(NotNumeric)
    case Number(v) => if v <= 0.0 then Reject(NotPositive) else Accept(v)
  }

  /**
   * The outcome of reading amounts from a stream: the amount accepted, if the
   * stream held one, the refusals reported before it, and how many lines were read.
   */
  datatype Scan = Scan(amount: Option<real>, rejections: seq<Rejection>, used: nat)

  /**
   * Reading stops at the first number above zero; every line before it is
   * refused with its reason. A stream with no such number is read to its end.
   */
  function ScanAmount(tokens: seq<Token>): (r: Scan) {
    if tokens == [] then Scan(None, [], 0)
    else
      match Check(tokens[0])
      case Accept(v) => Scan(Some(v), [], 1)
      case Reject(why) =>
        var rest := ScanAmount(tokens[1..]);
        Scan(rest.amount, [why] + rest.rejections, rest.used + 1)
  }

  /**
   * What the scan yields: an amount above zero taken from the last line read,
   * or no amount after reading every line; in both cases one refusal, with
   * its reason, for each line read before the last.
   */
  lemma {:induction false} ScanAmountMeaning(tokens: seq<Token>)
    ensures var r := ScanAmount(tokens);
            && r.used <= |tokens|
            && (r.amount.None? ==> r.used == |tokens| && |r.rejections| == |tokens|)
            && (r.amount.Some? ==>
                  && 1 <= r.used
                  && |r.rejections| == r.used - 1
                  && tokens[r.used - 1] == Number(r.amount.value)
                  && r.amount.value > 0.0)
            && forall i :: 0 <= i < |r.rejections| ==> Check(tokens[i]) == Reject(r.rejections[i])
    decreases |tokens|
  {
    if tokens != [] && Check(tokens[0]).Reject? {
      ScanAmountMeaning(tokens[1..]);
    }
  }

  /** The loop itself, reading one token per pass. */
  method ReadAmount(tokens: seq<Token>) returns (amount: Option<real>, rejections: seq<Rejection>, used: nat)
    ensures Scan(amount, rejections, used) == ScanAmount(tokens)
  {
    rejections, used := [], 0;
    while used < |tokens|
      invariant used <= |tokens|
      invariant var rest := ScanAmount(tokens[used..]);
                ScanAmount(tokens) == Scan(rest.amount, rejections + rest.rejections, used + rest.used)
    {
      ghost var here := tokens[used..];
      assert here[0] == tokens[used] && here[1..] == tokens[used + 1..];
      match Check(tokens[used])
      case Accept(v) =>
        assert ScanAmount(here) == Scan(Some(v), [], 1);
        return Some(v), rejections, used + 1;
      case Reject(why) =>
        ghost var next := ScanAmount(tokens[used + 1..]);
        assert ScanAmount(here) == Scan(next.amount, [why] + next.rejections, next.used + 1);
        assert rejections + ([why] + next.rejections) == (rejections + [why]) + next.rejections;
        rejections, used := rejections + [why], used + 1;
    }
    assert tokens[used..] == [];
    amount := None;
  }

  /** A stream holding a number above zero always yields an amount, and never a later one. */
  lemma {:induction false} ScanAmountFindsFirstPositive(tokens: seq<Token>, k: nat)
    requires k < |tokens| && Check(tokens[k]).Accept?
    ensures ScanAmount(tokens).amount.Some?
    ensures ScanAmount(tokens).used <= k + 1
    decreases k
  {
    if Check(tokens[0]).Reject? {
      ScanAmountFindsFirstPositive(tokens[1..], k - 1);
    }
  }
}
