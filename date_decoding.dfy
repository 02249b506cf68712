/**
  The date strategy of the shared JSON decoder (`APIService.jsonDecoder`): RFC 3339
  (section 5.6) date-time with fractional seconds, then without, then the fixed
  pattern `yyyy-MM-dd'T'HH:mm:ss.SSSSSS'Z'` in UTC. The three parsers are inputs; the
  state modelled is the one ISO formatter whose options every decode shares.
 */
module DateDecoding {
  import opened Wrappers
  import opened Models

  /** `iso(s, withFractionalSeconds)` is the ISO formatter under the given options;
      `fixedPattern` is the fallback `DateFormatter`. */
  datatype Parsers = Parsers(iso: (string, bool) -> Option<Date>, fixedPattern: string -> Option<Date>)

  /** One decode against formatter options `fractional`: its result and the options it
      leaves behind. */
  function Chain(p: Parsers, fractional: bool, s: string): (Result<Date, string>, bool)
  {
    if p.iso(s, fractional).Some? then (Ok(p.iso(s, fractional).value), fractional)
    else if p.iso(s, false).Some? then (Ok(p.iso(s, false).value), false)
    else if p.fixedPattern(s).Some? then (Ok(p.fixedPattern(s).value), false)
    else (Err("Cannot decode date string " + s), false)
  }

  /** The first parser that succeeds decides; the decode fails only if all three fail;
      the options stay as they were exactly when the first attempt succeeds, else they
      are left without fractional seconds. */
  lemma ChainFirstSuccess(p: Parsers, fractional: bool, s: string)
    ensures var (r, after) := Chain(p, fractional, s);
      && (r.Err? <==> p.iso(s, fractional).None? && p.iso(s, false).None? && p.fixedPattern(s).None?)
      && (p.iso(s, fractional).Some? ==> r == Ok(p.iso(s, fractional).value))
      && (p.iso(s, fractional).None? && p.iso(s, false).Some? ==> r == Ok(p.iso(s, false).value))
      && (p.iso(s, fractional).None? && p.iso(s, false).None? && p.fixedPattern(s).Some? ==> r == Ok(p.fixedPattern(s).value))
      && (after <==> fractional && p.iso(s, fractional).Some?)
  {
  }

  /** The formatter shared by every decode through the shared JSON decoder. */
  class SharedFormatter {
    var withFractionalSeconds: bool
    const parsers: Parsers

    constructor (parsers: Parsers)
      ensures withFractionalSeconds && this.parsers == parsers
    {
      withFractionalSeconds := true;
      this.parsers := parsers;
    }

    /** The date closure: changes the shared options in place and never restores them. */
    method DecodeDate(s: string) returns (r: Result<Date, string>)
      modifies this
      ensures (r, withFractionalSeconds) == Chain(parsers, old(withFractionalSeconds), s)
    {
      var date := parsers.iso(s, withFractionalSeconds);
      if date.Some? {
        return Ok(date.value);
      }
      withFractionalSeconds := false;
      date := parsers.iso(s, withFractionalSeconds);
      if date.Some? {
        return Ok(date.value);
      }
      date := parsers.fixedPattern(s);
      if date.Some? {
        return Ok(date.value);
      }
      return Err("Cannot decode date string " + s);
    }
  }

  /** Decoding the strings one after another through the shared formatter: the results
      and the options left at the end. */
  function DecodeInOrder(p: Parsers, fractional: bool, ss: seq<string>): (seq<Result<Date, string>>, bool)
  {
    if ss == [] then ([], fractional)
    else
      var (r, next) := Chain(p, fractional, ss[0]);
      var (rest, last) := DecodeInOrder(p, next, ss[1..]);
      ([r] + rest, last)
  }

  /** Once a decode has fallen past the first parser, the options stay reduced for every
      later decode; starting from fractional options, they survive only if every string
      was accepted at the first attempt. */
  lemma {:induction false} ReducedOptionsPersist(p: Parsers, fractional: bool, ss: seq<string>)
    ensures |DecodeInOrder(p, fractional, ss).0| == |ss|
    ensures DecodeInOrder(p, fractional, ss).1 <==> fractional && forall i :: 0 <= i < |ss| ==> p.iso(ss[i], true).Some?
  {
    if ss != [] {
      var (r, next) := Chain(p, fractional, ss[0]);
      ReducedOptionsPersist(p, next, ss[1..]);
      assert forall i :: 1 <= i < |ss| ==> ss[i] == ss[1..][i - 1];
    }
  }

  /** The decode as evidently intended: every decode starts from the formatter's
      fractional-seconds options, so nothing carries over between decodes. */
  function DecodeFresh(p: Parsers, s: string): (r: Result<Date, string>)
    ensures p.iso(s, true).Some? ==> r == Ok(p.iso(s, true).value)
    ensures r.Err? <==> p.iso(s, true).None? && p.iso(s, false).None? && p.fixedPattern(s).None?
  {
    Chain(p, true, s).0
  }

  /** With the intended decode, a string the fractional-seconds parser accepts decodes to
      its value at whatever position it comes, and the i-th result of the shared
      formatter agrees with it as long as every earlier string parsed at the first attempt. */
  lemma {:induction false} SharedAgreesWhileFractional(p: Parsers, ss: seq<string>, i: nat)
    requires i < |ss|
    requires forall j :: 0 <= j < i ==> p.iso(ss[j], true).Some?
    ensures |DecodeInOrder(p, true, ss).0| == |ss|
    ensures DecodeInOrder(p, true, ss).0[i] == DecodeFresh(p, ss[i])
  {
    ReducedOptionsPersist(p, true, ss);
    if i > 0 {
      assert p.iso(ss[0], true).Some?;
      SharedAgreesWhileFractional(p, ss[1..], i - 1);
    }
  }

  const WholeSeconds: string := "2026-01-08T10:00:00Z"
  /** A fractional-seconds timestamp with a numeric offset: the fixed pattern, whose
      zone is the literal 'Z', cannot match it whatever it makes of the digits. */
  const FractionalWithOffset: string := "2026-01-08T10:00:00.123+01:00"

  /** Parsers that behave like the platform's on these two strings (dates in whole
      seconds since 1970): the ISO formatter accepts fractional seconds only with that
      option and whole seconds only without it, and the fixed pattern takes neither,
      since neither has six fractional digits followed by 'Z'. */
  function ExampleParsers(): Parsers {
    Parsers(
      (s, fractional) =>
        if fractional && s == FractionalWithOffset then Some(1767862800)
        else if !fractional && s == WholeSeconds then Some(1767866400)
        else None,
      s => None)
  }

  /** As written, a whole-seconds timestamp followed by a fractional one makes the second
      fail, although decoded on its own (or with the intended decode) it succeeds. */
  lemma SharedFormatterRejectsLaterFractionalDate()
    ensures DecodeInOrder(ExampleParsers(), true, [FractionalWithOffset]).0 == [Ok(1767862800)]
    ensures DecodeInOrder(ExampleParsers(), true, [WholeSeconds, FractionalWithOffset]).0
      == [Ok(1767866400), Err("Cannot decode date string " + FractionalWithOffset)]
    ensures DecodeFresh(ExampleParsers(), FractionalWithOffset) == Ok(1767862800)
  {
    var p := ExampleParsers();
    assert Chain(p, true, WholeSeconds) == (Ok(1767866400), false);
    assert Chain(p, false, FractionalWithOffset) == (Err("Cannot decode date string " + FractionalWithOffset), false);
    assert DecodeInOrder(p, false, [FractionalWithOffset]).0 == [Err("Cannot decode date string " + FractionalWithOffset)];
    assert [WholeSeconds, FractionalWithOffset][1..] == [FractionalWithOffset];
    assert Chain(p, true, FractionalWithOffset) == (Ok(1767862800), true);
  }
}
