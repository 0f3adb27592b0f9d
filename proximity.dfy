/** The proximity poller: reads `{"distance": <cm>}` from the sensor host,
    keeps the last distance and a three-level safety classification. */
module Proximity {
  import opened Options
  import opened Digits

  datatype SafetyState = SAFE | WARNING | DANGER

  /** Kotlin's `Int.MAX_VALUE`: `toInt` throws above it. */
  const INT_MAX: int := 0x7fff_ffff

  /** How severe a state is, for comparing states. */
  function Severity(s: SafetyState): nat
  {
    match s
    case SAFE => 0
    case WARNING => 1
    case DANGER => 2
  }

  /** The threshold classification of a distance reading. */
  function Classify(d: Option<int>): (r: SafetyState)
    ensures r == DANGER <==> d.Some? && d.value <= 2
    ensures r == SAFE <==> d.None? || d.value > 18
  {
    match d
    case None => SAFE
    case Some(v) =>
      if v <= 2 then DANGER
      else if v <= 18 then WARNING
      else SAFE
  }

  /** Null and far readings are SAFE, 3 to 18 cm is WARNING, 2 cm or less
      (including negative values) is DANGER. */
  lemma ClassifyBands(v: int)
    ensures Classify(None) == SAFE
    ensures Classify(Some(v)) == DANGER <==> v <= 2
    ensures Classify(Some(v)) == WARNING <==> 3 <= v <= 18
    ensures Classify(Some(v)) == SAFE <==> v > 18
  {
  }

  /** A nearer obstacle is never classified as less severe. */
  lemma ClassifyMonotone(x: int, y: int)
    requires x <= y
    ensures Severity(Classify(Some(x))) >= Severity(Classify(Some(y)))
  {
  }

  /** The literal text the pattern `"distance":(\d+)` starts with. */
  const TAG: string := "\"distance\":"

  /** The longest prefix of `s` made of ASCII digits (`\d+` is greedy). */
  function DigitPrefix(s: string): (r: string)
    ensures AllDigits(r) && r <= s
    ensures |r| < |s| ==> !IsDigit(s[|r|])
  {
    if |s| == 0 || !IsDigit(s[0]) then ""
    else [s[0]] + DigitPrefix(s[1..])
  }

  /** The pattern matches at position `i`: the tag, then at least one digit. */
  predicate MatchAt(body: string, i: nat)
  {
    i + |TAG| < |body| && body[i..i + |TAG|] == TAG && IsDigit(body[i + |TAG|])
  }

  /** What `toInt` makes of the captured digits. */
  datatype Parsed = NoMatch | Cm(value: int) | IntOverflow

  function ToInt(digits: string): Parsed
    requires AllDigits(digits)
  {
    var v := DigitsValue(digits);
    if v <= INT_MAX then Cm(v) else IntOverflow
  }

  /** The value captured by a match at position `i`. */
  function CapturedAt(body: string, i: nat): Parsed
    requires i + |TAG| <= |body|
  {
    ToInt(DigitPrefix(body[i + |TAG|..]))
  }

  /** The regex search from position `i` on: the leftmost match wins. */
  function FindFrom(body: string, i: nat): (r: Parsed)
    ensures r == NoMatch <==> forall j: nat :: i <= j ==> !MatchAt(body, j)
    ensures r != NoMatch ==>
      exists k: nat :: i <= k && MatchAt(body, k) &&
        (forall j: nat :: i <= j < k ==> !MatchAt(body, j)) && r == CapturedAt(body, k)
    decreases |body| - i
  {
    if i + |TAG| >= |body| then NoMatch
    else if MatchAt(body, i) then CapturedAt(body, i)
    else FindFrom(body, i + 1)
  }

  /** `Regex("\"distance\":(\\d+)").find(response)?.groupValues?.get(1)?.toInt()`,
      with the exception `toInt` throws on a value above `Int.MAX_VALUE`
      reported as `IntOverflow`. */
  function ParseDistance(body: string): (r: Parsed)
    ensures r == NoMatch <==> forall j: nat :: !MatchAt(body, j)
    ensures r.Cm? ==> 0 <= r.value <= INT_MAX
  {
    FindFrom(body, 0)
  }

  /** A sensor reply rendered as `{"distance":<n>}` parses back to `n`. */
  lemma DistanceRoundTrip(n: nat)
    requires n <= INT_MAX
    ensures ParseDistance("{" + TAG + NatToString(n) + "}") == Cm(n)
  {
    var digits := NatToString(n);
    var body := "{" + TAG + digits + "}";
    assert body[1..1 + |TAG|] == TAG;
    assert body[1 + |TAG|] == digits[0];
    assert !MatchAt(body, 0);
    assert MatchAt(body, 1);
    assert FindFrom(body, 0) == FindFrom(body, 1);
    assert body[1 + |TAG|..] == digits + "}";
    DigitPrefixOfDigits(digits, "}");
    DigitsValueOfNatToString(n);
  }

  /** The digit prefix of a digit run followed by a non-digit is that run. */
  lemma {:induction false} DigitPrefixOfDigits(digits: string, rest: string)
    requires AllDigits(digits)
    requires |rest| > 0 && !IsDigit(rest[0])
    ensures DigitPrefix(digits + rest) == digits
  {
    if |digits| > 0 {
      assert (digits + rest)[1..] == digits[1..] + rest;
      DigitPrefixOfDigits(digits[1..], rest);
    } else {
      assert digits + rest == rest;
    }
  }

  /** One poll: `None` is a failed request. A reply without a match clears the
      distance; a value too large for `toInt` throws, and the exception, like
      a failed request, keeps the previous distance. */
  function Polled(d: Option<int>, response: Option<string>): (r: Option<int>)
    ensures r == d || (response.Some? && (r.None? || 0 <= r.value <= INT_MAX))
    ensures r.None? && d.Some? ==> response.Some? && ParseDistance(response.value) == NoMatch
  {
    match response
    case None => d
    case Some(body) =>
      match ParseDistance(body)
      case NoMatch => None
      case Cm(v) => Some(v)
      case IntOverflow => d
  }

  /** The distance after a run of polls. */
  function AfterPolls(d: Option<int>, responses: seq<Option<string>>): Option<int>
    decreases |responses|
  {
    if |responses| == 0 then d
    else AfterPolls(Polled(d, responses[0]), responses[1..])
  }

  /** A poll never moves towards DANGER unless the sensor reported it: a
      failed request keeps the state, a reply without a distance gives SAFE,
      and only a parsed reading of 2 cm or less gives DANGER. */
  lemma PollNeverEscalatesOnFailure(d: Option<int>, response: Option<string>)
    ensures Classify(Polled(d, response)) == DANGER ==>
      Polled(d, response) == d ||
      (response.Some? && ParseDistance(response.value).Cm? && ParseDistance(response.value).value <= 2)
    ensures response.Some? && ParseDistance(response.value) == NoMatch ==>
      Polled(d, response) == None && Classify(Polled(d, response)) == SAFE
  {
  }

  /** After a run of polls the distance is the one of the last effective
      reply; trailing failures change nothing. */
  lemma {:induction false} AfterPollsIgnoresFailures(d: Option<int>, responses: seq<Option<string>>)
    ensures AfterPolls(d, responses + [None]) == AfterPolls(d, responses)
    decreases |responses|
  {
    if |responses| == 0 {
      assert AfterPolls(d, [None]) == AfterPolls(Polled(d, None), []);
    } else {
      assert (responses + [None])[1..] == responses[1..] + [None];
      AfterPollsIgnoresFailures(Polled(d, responses[0]), responses[1..]);
    }
  }

  class DistanceViewModel {
    var distanceCm: Option<int>
    var safetyState: SafetyState
    /** The host a polling job is running for, or None when there is no job. */
    var pollingJob: Option<string>

    /** The state is always the classification of the distance. */
    ghost predicate Valid()
      reads this
    {
      safetyState == Classify(distanceCm)
    }

    constructor ()
      ensures Valid()
      ensures distanceCm == None && safetyState == SAFE && pollingJob == None
    {
      distanceCm := None;
      safetyState := SAFE;
      pollingJob := None;
    }

    method StartPolling(camIp: string)
      modifies this
      ensures old(pollingJob).Some? ==> pollingJob == old(pollingJob)
      ensures old(pollingJob).None? ==> pollingJob == Some(camIp)
      ensures distanceCm == old(distanceCm) && safetyState == old(safetyState)
    {
      if pollingJob.Some? {
        return;
      }
      pollingJob := Some(camIp);
    }

    method StopPolling()
      modifies this
      ensures pollingJob == None
      ensures distanceCm == old(distanceCm) && safetyState == old(safetyState)
    {
      pollingJob := None;
    }

    method IsDanger() returns (r: bool)
      requires Valid()
      ensures r <==> Classify(distanceCm) == DANGER
    {
      r := safetyState == DANGER;
    }

    /** One iteration of the polling loop's body. */
    method PollOnce(response: Option<string>)
      requires Valid()
      modifies this
      ensures Valid()
      ensures distanceCm == Polled(old(distanceCm), response)
      ensures response.None? ==> distanceCm == old(distanceCm) && safetyState == old(safetyState)
      ensures pollingJob == old(pollingJob)
    {
      if response.None? {
        return;
      }
      var value := ParseDistance(response.value);
      if value == IntOverflow {
        return;
      }
      distanceCm := if value.Cm? then Some(value.value) else None;
      safetyState :=
        if value.NoMatch? then SAFE
        else if value.value <= 2 then DANGER
        else if value.value <= 18 then WARNING
        else SAFE;
    }

    /** The polling loop, run over the outcomes of its requests until it is
        cancelled. */
    method PollLoop(responses: seq<Option<string>>)
      requires Valid() && pollingJob.Some?
      modifies this
      ensures Valid()
      ensures distanceCm == AfterPolls(old(distanceCm), responses)
      ensures pollingJob == old(pollingJob)
    {
      var k := 0;
      while k < |responses|
        invariant 0 <= k <= |responses|
        invariant Valid() && pollingJob == old(pollingJob)
        invariant AfterPolls(old(distanceCm), responses) == AfterPolls(distanceCm, responses[k..])
      {
        assert responses[k..][1..] == responses[k + 1..];
        PollOnce(responses[k]);
        k := k + 1;
      }
    }
  }
}
