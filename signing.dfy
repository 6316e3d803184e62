/**
 * The request-signing layer of the ChaoXing client: the clip-time string,
 * the bracketed signature input that is fed to MD5 ("enc"), and the
 * parameter record sent with every playback log request.
 *
 * MD5 is a foreign hash: it is taken as an arbitrary function
 * `md5: string -> string`, so every property below holds whatever the hash is.
 */
module Signing {
  import opened Wrappers
  import opened Decimal

  /** The two instance fields the signing layer reads: `clazz_id` and `user_id`
      (the latter as its `'{}'.format` text). */
  datatype Client = Client(clazzId: string, userId: string)

  /** The pre-shared secret embedded in the signature input. */
  const Secret: string := "d_yHJ!$pdA~5"

  /** The value of `start_time` after defaulting: a missing start is `"0"`. */
  function StartText(start: Option<string>): string {
    if start.None? then "0" else start.value
  }

  /** The value of `end_time` after defaulting: a missing end is the duration. */
  function EndText(duration: int, end: Option<string>): string {
    if end.None? then IntToDecimal(duration) else end.value
  }

  /** `__get_clip_time`: `"<start>_<end>"`. */
  function ClipTime(duration: int, start: Option<string>, end: Option<string>): string {
    StartText(start) + "_" + EndText(duration, end)
  }

  /** The clip time begins with `"0_"` when the start is absent and with the
      start verbatim otherwise; it ends with the duration when the end is
      absent and with the end verbatim otherwise. */
  lemma ClipTimeParts(duration: int, start: Option<string>, end: Option<string>)
    ensures var r := ClipTime(duration, start, end);
            && (start.None? ==> |r| >= 2 && r[..2] == "0_")
            && (start.Some? ==> |r| > |start.value| && r[..|start.value| + 1] == start.value + "_")
            && (end.None? ==> |r| >= |IntToDecimal(duration)|
                              && r[|r| - |IntToDecimal(duration)|..] == IntToDecimal(duration))
            && (end.Some? ==> |r| >= |end.value| && r[|r| - |end.value|..] == end.value)
  {
  }

  /** `s` split at its last occurrence of `sep`, if there is one. */
  function SplitLast(s: string, sep: char): Option<(string, string)>
    decreases |s|
  {
    if s == [] then None
    else if s[|s| - 1] == sep then Some((s[..|s| - 1], []))
    else match SplitLast(s[..|s| - 1], sep)
      case None => None
      case Some(p) => Some((p.0, p.1 + [s[|s| - 1]]))
  }

  lemma {:induction false} SplitLastAppend(a: string, sep: char, b: string)
    requires sep !in b
    ensures SplitLast(a + [sep] + b, sep) == Some((a, b))
    decreases |b|
  {
    var s := a + [sep] + b;
    if b == [] {
      assert s[..|s| - 1] == a;
    } else {
      var b' := b[..|b| - 1];
      assert s[..|s| - 1] == a + [sep] + b';
      SplitLastAppend(a, sep, b');
      assert b' + [b[|b| - 1]] == b;
    }
  }

  /** A decimal rendering never contains the clip-time separator or a closing bracket. */
  lemma DecimalHasNoSeparators(i: int)
    ensures '_' !in IntToDecimal(i) && ']' !in IntToDecimal(i)
  {
    IntToDecimalChars(i);
  }

  /** The clip time splits back, at its last `_`, into the defaulted start and end. */
  lemma ClipTimeRoundTrip(duration: int, start: Option<string>, end: Option<string>)
    requires end.Some? ==> '_' !in end.value
    ensures SplitLast(ClipTime(duration, start, end), '_')
         == Some((StartText(start), EndText(duration, end)))
  {
    DecimalHasNoSeparators(duration);
    SplitLastAppend(StartText(start), '_', EndText(duration, end));
  }

  /** With both bounds absent the clip covers the whole duration. */
  lemma ClipTimeDefaults(duration: int)
    ensures ClipTime(duration, None, None) == "0_" + IntToDecimal(duration)
  {
  }

  /** Three concrete clip times for a 120-second item. */
  lemma ClipTimeExamples()
    ensures ClipTime(120, None, None) == "0_120"
    ensures ClipTime(120, None, Some("90")) == "0_90"
    ensures ClipTime(120, Some("10"), None) == "10_120"
  {
  }

  /** The job id as it appears in the signature input: `None` becomes `""`. */
  function JobText(jobId: Option<string>): string {
    if jobId.None? then "" else jobId.value
  }

  /** One field of the signature input. */
  function Field(f: string): string {
    "[" + f + "]"
  }

  /** The fields, each in brackets, one after the other. */
  function Joined(fs: seq<string>): string
    decreases |fs|
  {
    if fs == [] then "" else Field(fs[0]) + Joined(fs[1..])
  }

  /** The values `__get_enc` formats into its eight placeholders, in order. */
  function EncFields(c: Client, jobId: Option<string>, objectId: string, playingTime: int,
                     duration: int, start: Option<string>, end: Option<string>): seq<string>
  {
    [c.clazzId, c.userId, JobText(jobId), objectId, IntToDecimal(playingTime * 1000), Secret,
     IntToDecimal(duration * 1000), ClipTime(duration, start, end)]
  }

  /** The string hashed by `__get_enc`. */
  function EncInput(c: Client, jobId: Option<string>, objectId: string, playingTime: int,
                    duration: int, start: Option<string>, end: Option<string>): string
  {
    Joined(EncFields(c, jobId, objectId, playingTime, duration, start, end))
  }

  /** `__get_enc`: the MD5 digest of the signature input. */
  function Enc(md5: string -> string, c: Client, jobId: Option<string>, objectId: string,
               playingTime: int, duration: int, start: Option<string>, end: Option<string>): string
  {
    md5(EncInput(c, jobId, objectId, playingTime, duration, start, end))
  }

  /** The signed fields of a start submission for an attachment without a job id. */
  lemma EncFieldsExample()
    ensures EncFields(Client("c1", "u2"), None, "o3", 0, 60, None, None)
         == ["c1", "u2", "", "o3", "0", "d_yHJ!$pdA~5", "60000", "0_60"]
  {
    assert IntToDecimal(60) == "60" by { assert NatToDecimal(6) == "6"; }
    assert ClipTime(60, None, None) == "0_60";
    assert IntToDecimal(60 * 1000) == "60000" by {
      assert NatToDecimal(60) == "60" by { assert NatToDecimal(6) == "6"; }
      assert NatToDecimal(600) == "600";
      assert NatToDecimal(6000) == "6000";
    }
    assert IntToDecimal(0 * 1000) == "0";
  }

  // ---------------------------------------------------------------------------
  // Reading the signature input back into its fields.

  /** Length of the longest prefix of `s` holding no `]`. */
  function FieldLength(s: string): (n: nat)
    ensures n <= |s|
    decreases |s|
  {
    if s == [] || s[0] == ']' then 0 else 1 + FieldLength(s[1..])
  }

  /** Parses a concatenation of bracketed fields, each free of `]`. */
  function SplitFields(s: string): Option<seq<string>>
    decreases |s|
  {
    if s == [] then Some([])
    else if s[0] != '[' then None
    else
      var t := s[1..];
      var n := FieldLength(t);
      if n == |t| then None
      else match SplitFields(t[n + 1..])
        case None => None
        case Some(fs) => Some([t[..n]] + fs)
  }

  lemma {:induction false} FieldLengthOf(f: string, rest: string)
    requires ']' !in f
    ensures FieldLength(f + "]" + rest) == |f|
    decreases |f|
  {
    if f != [] {
      assert (f + "]" + rest)[1..] == f[1..] + "]" + rest;
      FieldLengthOf(f[1..], rest);
    }
  }

  lemma SplitFieldsCons(f: string, rest: string)
    requires ']' !in f
    ensures SplitFields(Field(f) + rest)
         == match SplitFields(rest) case None => None case Some(fs) => Some([f] + fs)
  {
    var s := Field(f) + rest;
    var t := s[1..];
    assert t == f + "]" + rest;
    FieldLengthOf(f, rest);
    assert t[..|f|] == f;
    assert t[|f| + 1..] == rest;
  }

  /** Joining `]`-free fields and splitting the result gives the fields back. */
  lemma {:induction false} SplitJoined(fs: seq<string>)
    requires forall k :: 0 <= k < |fs| ==> ']' !in fs[k]
    ensures SplitFields(Joined(fs)) == Some(fs)
    decreases |fs|
  {
    if fs != [] {
      SplitJoined(fs[1..]);
      SplitFieldsCons(fs[0], Joined(fs[1..]));
      assert [fs[0]] + fs[1..] == fs;
    }
  }

  /** Text supplied by the caller that can be read back out of the signature input. */
  predicate Unbracketed(c: Client, jobId: Option<string>, objectId: string,
                        start: Option<string>, end: Option<string>)
  {
    && ']' !in c.clazzId && ']' !in c.userId && ']' !in JobText(jobId) && ']' !in objectId
    && (start.Some? ==> ']' !in start.value) && (end.Some? ==> ']' !in end.value)
  }

  /** The signature input consists of exactly eight bracketed fields, in order:
      clazz id, user id, job id, object id, playing time in ms, the secret,
      duration in ms and the clip time. */
  lemma EncInputFields(c: Client, jobId: Option<string>, objectId: string, playingTime: int,
                       duration: int, start: Option<string>, end: Option<string>)
    requires Unbracketed(c, jobId, objectId, start, end)
    ensures SplitFields(EncInput(c, jobId, objectId, playingTime, duration, start, end))
         == Some(EncFields(c, jobId, objectId, playingTime, duration, start, end))
  {
    var fs := EncFields(c, jobId, objectId, playingTime, duration, start, end);
    DecimalHasNoSeparators(playingTime * 1000);
    DecimalHasNoSeparators(duration * 1000);
    DecimalHasNoSeparators(duration);
    assert ']' !in Secret;
    forall k | 0 <= k < |fs| ensures ']' !in fs[k] {
      if k == 7 {
        assert ']' !in StartText(start) && ']' !in EndText(duration, end);
      }
    }
    SplitJoined(fs);
  }

  /** When no caller-supplied text contains `]`, equal signature inputs imply equal
      clazz id, user id, job text, object id, times and clip time. Arguments that
      default to the same text (job id `None` and `""`, say) still sign alike. */
  lemma EncInputInjective(c: Client, jobId: Option<string>, objectId: string, playingTime: int,
                          duration: int, start: Option<string>, end: Option<string>,
                          c': Client, jobId': Option<string>, objectId': string, playingTime': int,
                          duration': int, start': Option<string>, end': Option<string>)
    requires Unbracketed(c, jobId, objectId, start, end)
    requires Unbracketed(c', jobId', objectId', start', end')
    requires EncInput(c, jobId, objectId, playingTime, duration, start, end)
          == EncInput(c', jobId', objectId', playingTime', duration', start', end')
    ensures c == c' && JobText(jobId) == JobText(jobId') && objectId == objectId'
    ensures playingTime == playingTime' && duration == duration'
    ensures ClipTime(duration, start, end) == ClipTime(duration', start', end')
  {
    EncInputFields(c, jobId, objectId, playingTime, duration, start, end);
    EncInputFields(c', jobId', objectId', playingTime', duration', start', end');
    var fs := EncFields(c, jobId, objectId, playingTime, duration, start, end);
    var fs' := EncFields(c', jobId', objectId', playingTime', duration', start', end');
    assert fs == fs';
    assert fs[4] == fs'[4] && fs[6] == fs'[6];
    IntToDecimalInjective(playingTime * 1000, playingTime' * 1000);
    IntToDecimalInjective(duration * 1000, duration' * 1000);
  }

  /** An absent job id signs exactly like an empty one. */
  lemma AbsentJobSignsAsEmpty(md5: string -> string, c: Client, objectId: string, playingTime: int,
                              duration: int, start: Option<string>, end: Option<string>)
    ensures EncInput(c, None, objectId, playingTime, duration, start, end)
         == EncInput(c, Some(""), objectId, playingTime, duration, start, end)
    ensures Enc(md5, c, None, objectId, playingTime, duration, start, end)
         == Enc(md5, c, Some(""), objectId, playingTime, duration, start, end)
  {
  }

  // ---------------------------------------------------------------------------
  // The request parameter record.

  /** The dictionary returned by `__get_params`. */
  datatype Params = Params(
    clazzId: string,
    playingTime: int,
    duration: int,
    clipTime: string,
    objectId: string,
    otherInfo: string,
    jobid: Option<string>,
    userid: string,
    isdrag: int,
    view: string,
    enc: string,
    rt: Option<string>,
    dtype: string,
    t: int)

  /** `__get_params`; `t` is the wall-clock reading in milliseconds. */
  function BuildParams(md5: string -> string, c: Client, jobId: Option<string>, objectId: string,
                       playingTime: int, duration: int, start: Option<string>, end: Option<string>,
                       otherInfo: string, rt: Option<string>, isDrag: int, t: int): (r: Params)
    ensures r.view == "pc" && r.dtype == "Audio"
    ensures r.clazzId == c.clazzId && r.userid == c.userId
    ensures r.jobid == jobId && r.objectId == objectId && r.otherInfo == otherInfo
    ensures r.rt == rt && r.isdrag == isDrag && r.t == t
  {
    Params(
      clazzId := c.clazzId,
      playingTime := playingTime,
      duration := duration,
      clipTime := ClipTime(duration, start, end),
      objectId := objectId,
      otherInfo := otherInfo,
      jobid := jobId,
      userid := c.userId,
      isdrag := isDrag,
      view := "pc",
      enc := Enc(md5, c, jobId, objectId, playingTime, duration, start, end),
      rt := rt,
      dtype := "Audio",
      t := t)
  }

  /** The record's own fields are what its signature was computed from: the
      record carries the times unscaled, the signature input carries them in
      milliseconds, and both carry the same clip time. */
  lemma ParamsMatchSignature(md5: string -> string, c: Client, jobId: Option<string>, objectId: string,
                             playingTime: int, duration: int, start: Option<string>, end: Option<string>,
                             otherInfo: string, rt: Option<string>, isDrag: int, t: int)
    requires Unbracketed(c, jobId, objectId, start, end)
    ensures var r := BuildParams(md5, c, jobId, objectId, playingTime, duration, start, end,
                                 otherInfo, rt, isDrag, t);
            var input := EncInput(c, jobId, objectId, playingTime, duration, start, end);
            && r.enc == md5(input)
            && SplitFields(input)
               == Some([r.clazzId, r.userid, JobText(r.jobid), r.objectId,
                        IntToDecimal(r.playingTime * 1000), Secret,
                        IntToDecimal(r.duration * 1000), r.clipTime])
  {
    EncInputFields(c, jobId, objectId, playingTime, duration, start, end);
  }

  /** `other_info`, `rt`, `is_drag` and `_t` do not enter the signature: two
      records built from the same signed arguments differ in those fields only. */
  lemma EncIgnoresUnsignedArguments(md5: string -> string, c: Client, jobId: Option<string>,
                                    objectId: string, playingTime: int, duration: int,
                                    start: Option<string>, end: Option<string>,
                                    otherInfo: string, rt: Option<string>, isDrag: int, t: int,
                                    otherInfo': string, rt': Option<string>, isDrag': int, t': int)
    ensures var r := BuildParams(md5, c, jobId, objectId, playingTime, duration, start, end,
                                 otherInfo, rt, isDrag, t);
            var r' := BuildParams(md5, c, jobId, objectId, playingTime, duration, start, end,
                                  otherInfo', rt', isDrag', t');
            r'.enc == r.enc && r' == r.(otherInfo := otherInfo', rt := rt', isdrag := isDrag', t := t')
  {
  }

  /** The record keeps an absent job id as absent while signing it as `""`. */
  lemma AbsentJobInParams(md5: string -> string, c: Client, objectId: string, playingTime: int,
                          duration: int, start: Option<string>, end: Option<string>,
                          otherInfo: string, rt: Option<string>, isDrag: int, t: int)
    ensures var r := BuildParams(md5, c, None, objectId, playingTime, duration, start, end,
                                 otherInfo, rt, isDrag, t);
            var r' := BuildParams(md5, c, Some(""), objectId, playingTime, duration, start, end,
                                  otherInfo, rt, isDrag, t);
            r.jobid == None && r'.jobid == Some("") && r.enc == r'.enc
  {
  }
}
