/**
 * `ChaoXing.play`: for every attachment of the chapter, fetch its status and
 * submit a start event, then fetch its status again and submit a completion
 * event. The network, the wall clock and MD5 are the environment `Env`;
 * the requests the client sends are the result.
 */
module Playback {
  import opened Wrappers
  import opened Decimal
  import opened Signing

  /** One entry of `arg_json['attachments']`: its `jobid` (JSON null is `None`),
      `property.objectid` and `otherInfo`. */
  datatype Attachment = Attachment(jobId: Option<string>, objectId: string, otherInfo: string)

  /** The fields of an `/ananas/status/<objectid>` reply that `play` uses. */
  datatype Status = Status(duration: int, dtoken: string)

  /** A GET to `/multimedia/log/a/<cpi>/<dtoken>` with query `params`. */
  datatype Submission = Submission(cpi: string, dtoken: string, params: Params)

  /** What the client reads from outside: the hash, the status reply to the
      k-th status request of the run (for a given object id), and the
      millisecond clock read by the k-th call of `__get_params`. */
  datatype Env = Env(md5: string -> string, status: (string, nat) -> Status, clock: nat -> int)

  /** The two submissions for attachment number `i`, whose status requests are
      the run's requests number 2i and 2i+1. */
  function AttachmentSubmissions(env: Env, c: Client, cpi: string, a: Attachment, i: nat): seq<Submission>
  {
    var first := env.status(a.objectId, 2 * i);
    var second := env.status(a.objectId, 2 * i + 1);
    [Submission(cpi, first.dtoken,
                BuildParams(env.md5, c, a.jobId, a.objectId, 0, first.duration, None, None,
                            a.otherInfo, None, 0, env.clock(2 * i))),
     Submission(cpi, second.dtoken,
                BuildParams(env.md5, c, a.jobId, a.objectId, second.duration, second.duration,
                            None, None, a.otherInfo, None, 4, env.clock(2 * i + 1)))]
  }

  /** `f(xs[0], 0) + f(xs[1], 1) + ...`: the outputs of one step per element, in order. */
  function Concat<A, T>(xs: seq<A>, f: (A, nat) -> seq<T>): seq<T>
    decreases |xs|
  {
    if xs == [] then [] else Concat(xs[..|xs| - 1], f) + f(xs[|xs| - 1], |xs| - 1)
  }

  lemma ConcatSnoc<A, T>(xs: seq<A>, x: A, f: (A, nat) -> seq<T>)
    ensures Concat(xs + [x], f) == Concat(xs, f) + f(x, |xs|)
  {
    assert (xs + [x])[..|xs|] == xs;
  }

  /** When every step yields two outputs, outputs 2i and 2i+1 are those of element i. */
  lemma {:induction false} ConcatPairs<A, T>(xs: seq<A>, f: (A, nat) -> seq<T>, i: nat)
    requires forall x, j :: |f(x, j)| == 2
    requires i < |xs|
    ensures |Concat(xs, f)| == 2 * |xs|
    ensures Concat(xs, f)[2 * i] == f(xs[i], i)[0] && Concat(xs, f)[2 * i + 1] == f(xs[i], i)[1]
    decreases |xs|
  {
    var n := |xs| - 1;
    var front := Concat(xs[..n], f);
    if n == 0 {
      assert front == [];
    } else if i < n {
      ConcatPairs(xs[..n], f, i);
      assert xs[..n][i] == xs[i];
    } else {
      ConcatPairs(xs[..n], f, 0);
    }
  }

  /** Every submission `play` sends for `atts`, in order. */
  function Plan(env: Env, c: Client, cpi: string, atts: seq<Attachment>): seq<Submission> {
    Concat(atts, (a: Attachment, i: nat) => AttachmentSubmissions(env, c, cpi, a, i))
  }

  /** The submission for the start event of `a`, given the status reply `st`. */
  predicate IsStartEvent(env: Env, c: Client, cpi: string, a: Attachment, st: Status, s: Submission) {
    && s.cpi == cpi && s.dtoken == st.dtoken
    && s.params.playingTime == 0 && s.params.isdrag == 0 && s.params.duration == st.duration
    && s.params.jobid == a.jobId && s.params.objectId == a.objectId
    && s.params.otherInfo == a.otherInfo && s.params.rt == None
    && s.params.clipTime == "0_" + IntToDecimal(st.duration)
    && s.params.enc == env.md5(EncInput(c, a.jobId, a.objectId, 0, st.duration, None, None))
  }

  /** The submission for the completion event of `a`, given the status reply `st`. */
  predicate IsCompletionEvent(env: Env, c: Client, cpi: string, a: Attachment, st: Status, s: Submission) {
    && s.cpi == cpi && s.dtoken == st.dtoken
    && s.params.playingTime == st.duration && s.params.isdrag == 4
    && s.params.duration == st.duration
    && s.params.jobid == a.jobId && s.params.objectId == a.objectId
    && s.params.otherInfo == a.otherInfo && s.params.rt == None
    && s.params.clipTime == "0_" + IntToDecimal(st.duration)
    && s.params.enc == env.md5(EncInput(c, a.jobId, a.objectId, st.duration, st.duration, None, None))
  }

  /** The pair built for one attachment is its start event, then its completion event. */
  lemma AttachmentEvents(env: Env, c: Client, cpi: string, a: Attachment, i: nat)
    ensures var subs := AttachmentSubmissions(env, c, cpi, a, i);
            && |subs| == 2
            && IsStartEvent(env, c, cpi, a, env.status(a.objectId, 2 * i), subs[0])
            && IsCompletionEvent(env, c, cpi, a, env.status(a.objectId, 2 * i + 1), subs[1])
  {
    ClipTimeDefaults(env.status(a.objectId, 2 * i).duration);
    ClipTimeDefaults(env.status(a.objectId, 2 * i + 1).duration);
  }

  /** Requests 2i and 2i+1 of the plan are the pair built for attachment i. */
  lemma PlanPair(env: Env, c: Client, cpi: string, atts: seq<Attachment>, i: nat)
    requires i < |atts|
    ensures |Plan(env, c, cpi, atts)| == 2 * |atts|
    ensures Plan(env, c, cpi, atts)[2 * i] == AttachmentSubmissions(env, c, cpi, atts[i], i)[0]
    ensures Plan(env, c, cpi, atts)[2 * i + 1] == AttachmentSubmissions(env, c, cpi, atts[i], i)[1]
  {
    var f := (a: Attachment, j: nat) => AttachmentSubmissions(env, c, cpi, a, j);
    forall a, j: nat ensures |f(a, j)| == 2 {
    }
    ConcatPairs(atts, f, i);
  }

  /** Every attachment, none skipped, yields exactly two submissions in place:
      first its start event, built from the first status reply, then its
      completion event, built from the second. */
  lemma PlanAt(env: Env, c: Client, cpi: string, atts: seq<Attachment>, i: nat)
    requires i < |atts|
    ensures |Plan(env, c, cpi, atts)| == 2 * |atts|
    ensures IsStartEvent(env, c, cpi, atts[i], env.status(atts[i].objectId, 2 * i),
                         Plan(env, c, cpi, atts)[2 * i])
    ensures IsCompletionEvent(env, c, cpi, atts[i], env.status(atts[i].objectId, 2 * i + 1),
                              Plan(env, c, cpi, atts)[2 * i + 1])
  {
    PlanPair(env, c, cpi, atts, i);
    AttachmentEvents(env, c, cpi, atts[i], i);
  }

  /** The plan for one more attachment is the plan so far followed by that attachment's pair. */
  lemma PlanSnoc(env: Env, c: Client, cpi: string, atts: seq<Attachment>, i: nat)
    requires i < |atts|
    ensures Plan(env, c, cpi, atts[..i + 1])
         == Plan(env, c, cpi, atts[..i]) + AttachmentSubmissions(env, c, cpi, atts[i], i)
  {
    assert atts[..i + 1] == atts[..i] + [atts[i]];
    ConcatSnoc(atts[..i], atts[i], (a: Attachment, j: nat) => AttachmentSubmissions(env, c, cpi, a, j));
  }

  /** One pass of the loop body of `play`: fetch the status, submit the start
      event, fetch the status again, submit the completion event. */
  method PlayAttachment(env: Env, c: Client, cpi: string, attachment: Attachment, i: nat)
    returns (start: Submission, completion: Submission)
    ensures [start, completion] == AttachmentSubmissions(env, c, cpi, attachment, i)
  {
    var status := env.status(attachment.objectId, 2 * i);
    var params := BuildParams(env.md5, c, attachment.jobId, attachment.objectId, 0, status.duration,
                              None, None, attachment.otherInfo, None, 0, env.clock(2 * i));
    start := Submission(cpi, status.dtoken, params);
    status := env.status(attachment.objectId, 2 * i + 1);
    params := BuildParams(env.md5, c, attachment.jobId, attachment.objectId, status.duration,
                          status.duration, None, None, attachment.otherInfo, None, 4,
                          env.clock(2 * i + 1));
    completion := Submission(cpi, status.dtoken, params);
  }

  /** `play`: the loop over the attachments, returning the submissions it sends. */
  method Play(env: Env, c: Client, cpi: string, attachments: seq<Attachment>) returns (sent: seq<Submission>)
    ensures sent == Plan(env, c, cpi, attachments)
  {
    sent := [];
    for i := 0 to |attachments|
      invariant sent == Plan(env, c, cpi, attachments[..i])
    {
      var start, completion := PlayAttachment(env, c, cpi, attachments[i], i);
      sent := sent + [start];
      sent := sent + [completion];
      PlanSnoc(env, c, cpi, attachments, i);
    }
    assert attachments[..|attachments|] == attachments;
  }
}
