/**
 * run_diamond_workflow: extract once, then at most max_retries attempts of
 * architect (first attempt) or refiner (later attempts), each followed by a
 * review unless it produced an empty structure, then build once.
 */
module Diamond {
  import opened Wrappers
  import opened Collections
  import opened JsonValue
  import Fences
  import opened Agents

  // ---------------- Specification of the loop ----------------

  /**
   * What the agents return during one run: the architect's structure, and the
   * refiner's structures and the reviewer's verdicts by call number, of which
   * the first refineBase and reviewBase calls were made before this run.
   */
  datatype Script = Script(architect: Object, refine: nat -> Object, review: nat -> Verdict,
                           refineBase: nat, reviewBase: nat)

  /** One attempt: the structure it assigned and, unless that was empty, the reviewer's verdict. */
  datatype Round = Round(structure: Object, verdict: Option<Verdict>)

  predicate Approved(r: Round) {
    r.verdict.Some? && Truthy(r.verdict.value.approved)
  }

  /** The loop broke out: its last attempt was approved. */
  predicate Stopped(done: seq<Round>) {
    done != [] && Approved(Last(done))
  }

  /** The variable `feedback` after the given attempts: the latest review's, else the initial "". */
  function Feedback(done: seq<Round>): (fb: Json)
    ensures (forall k :: 0 <= k < |done| ==> done[k].verdict.None?) ==> fb == JStr("")
  {
    if done == [] then JStr("")
    else if Last(done).verdict.Some? then Last(done).verdict.value.feedback
    else Feedback(done[..|done| - 1])
  }

  /** The (game_structure, feedback) arguments of the refiner calls made by the given attempts. */
  function RefinerCalls(done: seq<Round>): (calls: seq<(Object, Json)>)
    ensures |calls| == if done == [] then 0 else |done| - 1
  {
    if |done| <= 1 then []
    else
      var prior := done[..|done| - 1];
      RefinerCalls(prior) + [(Last(prior).structure, Feedback(prior))]
  }

  /** The structures handed to the reviewer by the given attempts. */
  function ReviewerCalls(done: seq<Round>): (calls: seq<Object>)
    ensures |calls| <= |done|
  {
    if done == [] then []
    else ReviewerCalls(done[..|done| - 1]) + (if Last(done).verdict.Some? then [Last(done).structure] else [])
  }

  /** The non-empty structures among those the given attempts assigned, in order. */
  function NonEmptyStructures(done: seq<Round>): seq<Object> {
    if done == [] then []
    else NonEmptyStructures(done[..|done| - 1]) + (if Last(done).structure != map[] then [Last(done).structure] else [])
  }

  /** Attempt number |done| + 1. */
  function NextRound(s: Script, done: seq<Round>): (r: Round)
    ensures r.verdict.None? <==> r.structure == map[]
    ensures done == [] ==> r.structure == s.architect
  {
    var gs := if done == [] then s.architect else s.refine(s.refineBase + |done| - 1);
    if gs == map[] then Round(gs, None)
    else Round(gs, Some(s.review(s.reviewBase + |ReviewerCalls(done)|)))
  }

  /** The attempts that follow the given ones until approval or until max_retries attempts. */
  function Rounds(s: Script, maxRetries: nat, done: seq<Round>): seq<Round>
    decreases maxRetries - |done|
  {
    if |done| >= maxRetries || Stopped(done) then done
    else Rounds(s, maxRetries, done + [NextRound(s, done)])
  }

  /** All attempts of one run. */
  function Run(s: Script, maxRetries: nat): (r: seq<Round>)
    ensures |r| <= maxRetries
    ensures Stopped(r) || |r| == maxRetries
  {
    RoundsEnd(s, maxRetries, []);
    Rounds(s, maxRetries, [])
  }

  // ---------------- Properties of the loop ----------------

  /** Rounds only extends the attempts it is given. */
  lemma {:induction false} RoundsExtends(s: Script, maxRetries: nat, done: seq<Round>)
    ensures |done| <= |Rounds(s, maxRetries, done)|
    ensures Rounds(s, maxRetries, done)[..|done|] == done
    decreases maxRetries - |done|
  {
    if |done| >= maxRetries || Stopped(done) {
      assert done[..|done|] == done;
    } else {
      var next := done + [NextRound(s, done)];
      RoundsExtends(s, maxRetries, next);
      var r := Rounds(s, maxRetries, next);
      assert r[..|next|][..|done|] == r[..|done|];
    }
  }

  /** Rounds never goes past max_retries attempts, and stops early only on approval. */
  lemma {:induction false} RoundsEnd(s: Script, maxRetries: nat, done: seq<Round>)
    ensures |done| <= maxRetries ==> |Rounds(s, maxRetries, done)| <= maxRetries
    ensures Stopped(Rounds(s, maxRetries, done)) || |Rounds(s, maxRetries, done)| >= maxRetries
    decreases maxRetries - |done|
  {
    if !(|done| >= maxRetries || Stopped(done)) {
      RoundsEnd(s, maxRetries, done + [NextRound(s, done)]);
    }
  }

  /** Every attempt Rounds adds was made below the bound, after no approval, from the attempts before it. */
  lemma {:induction false} RoundsStep(s: Script, maxRetries: nat, done: seq<Round>, k: nat)
    requires |done| <= k < |Rounds(s, maxRetries, done)|
    ensures var r := Rounds(s, maxRetries, done);
      k < maxRetries && !Stopped(r[..k]) && r[k] == NextRound(s, r[..k])
    decreases maxRetries - |done|
  {
    var next := done + [NextRound(s, done)];
    assert !(|done| >= maxRetries || Stopped(done));
    var r := Rounds(s, maxRetries, next);
    RoundsExtends(s, maxRetries, next);
    if k == |done| {
      assert r[..k] == r[..|next|][..k];
      assert r[k] == r[..|next|][k];
    } else {
      RoundsStep(s, maxRetries, next, k);
    }
  }

  /** The loop makes between 1 and max_retries attempts. */
  lemma AttemptBounds(s: Script, maxRetries: nat)
    requires maxRetries >= 1
    ensures 1 <= |Run(s, maxRetries)| <= maxRetries
  {
    RoundsEnd(s, maxRetries, []);
  }

  /** An approval on attempt k ends the loop at attempt k; only the last attempt can be approved. */
  lemma ApprovalStopsLoop(s: Script, maxRetries: nat, k: nat)
    requires k < |Run(s, maxRetries)|
    requires Approved(Run(s, maxRetries)[k])
    ensures k == |Run(s, maxRetries)| - 1
  {
    var r := Run(s, maxRetries);
    if k + 1 < |r| {
      RoundsStep(s, maxRetries, [], k + 1);
    }
  }

  /** The loop only stops before max_retries attempts when the last one was approved. */
  lemma EarlyExitMeansApproved(s: Script, maxRetries: nat)
    requires |Run(s, maxRetries)| < maxRetries
    ensures Stopped(Run(s, maxRetries))
  {
    RoundsEnd(s, maxRetries, []);
  }

  /** Without any approval the loop uses all max_retries attempts. */
  lemma NoApprovalUsesAllAttempts(s: Script, maxRetries: nat)
    requires forall k :: 0 <= k < |Run(s, maxRetries)| ==> !Approved(Run(s, maxRetries)[k])
    ensures |Run(s, maxRetries)| == maxRetries
  {
    RoundsEnd(s, maxRetries, []);
  }

  /**
   * Where attempt k + 1's structure comes from: the architect on the first
   * attempt, the k-th refiner reply otherwise, assigned even when it is empty.
   * An empty structure skips the review; a non-empty one gets the next review.
   */
  lemma AttemptSource(s: Script, maxRetries: nat, k: nat)
    requires k < |Run(s, maxRetries)|
    ensures var r := Run(s, maxRetries);
      && r[k].structure == (if k == 0 then s.architect
                            else s.refine(s.refineBase + k - 1))
      && r[k].verdict == (if r[k].structure == map[] then None
                          else Some(s.review(s.reviewBase + |ReviewerCalls(r[..k])|)))
  {
    RoundsStep(s, maxRetries, [], k);
    assert |Run(s, maxRetries)[..k]| == k;
  }

  /** A prefix of a run that is neither approved nor at the bound is followed by the next attempt. */
  lemma RunContinues(s: Script, maxRetries: nat, done: seq<Round>)
    requires |done| <= |Run(s, maxRetries)| && Run(s, maxRetries)[..|done|] == done
    requires |done| < maxRetries && !Stopped(done)
    ensures |done| < |Run(s, maxRetries)|
    ensures Run(s, maxRetries)[..|done| + 1] == done + [NextRound(s, done)]
  {
    var r := Run(s, maxRetries);
    var n := |done|;
    assert n < |r| by {
      RoundsEnd(s, maxRetries, []);
      assert r[..|r|] == r;
    }
    assert r[n] == NextRound(s, done) by {
      RoundsStep(s, maxRetries, [], n);
    }
    assert r[..n + 1] == r[..n] + [r[n]];
  }

  /** A prefix of a run that is approved or at the bound is the whole run. */
  lemma RunEnds(s: Script, maxRetries: nat, done: seq<Round>)
    requires |done| <= |Run(s, maxRetries)| && Run(s, maxRetries)[..|done|] == done
    requires |done| >= maxRetries || Stopped(done)
    ensures Run(s, maxRetries) == done
  {
    var r := Run(s, maxRetries);
    RoundsEnd(s, maxRetries, []);
    if |done| < |r| {
      RoundsStep(s, maxRetries, [], |done|);
    }
  }

  /** What one more attempt adds to the loop variables and to the agent calls. */
  lemma RoundAppended(done: seq<Round>, round: Round)
    ensures var d := done + [round];
      && Last(d) == round
      && Feedback(d) == (if round.verdict.Some? then round.verdict.value.feedback else Feedback(done))
      && RefinerCalls(d) == (if done == [] then [] else RefinerCalls(done) + [(Last(done).structure, Feedback(done))])
      && ReviewerCalls(d) == (if round.verdict.Some? then ReviewerCalls(done) + [round.structure] else ReviewerCalls(done))
  {
    var d := done + [round];
    assert d[..|d| - 1] == done;
    if round.verdict.None? {
      AppendNil(ReviewerCalls(done));
    }
  }

  /**
   * The refiner call made on attempt k + 1 receives attempt k's structure and the
   * feedback of the latest review so far.
   */
  lemma {:induction false} RefinerArguments(done: seq<Round>, k: nat)
    requires 1 <= k < |done|
    ensures |RefinerCalls(done)| == |done| - 1
    ensures RefinerCalls(done)[k - 1] == (done[k - 1].structure, Feedback(done[..k]))
    decreases |done|
  {
    var prior := done[..|done| - 1];
    if k < |done| - 1 {
      RefinerArguments(prior, k);
      assert prior[..k] == done[..k];
    } else {
      assert prior == done[..k];
    }
  }

  /** An attempt with an empty structure leaves `feedback` as it was. */
  lemma EmptyAttemptKeepsFeedback(done: seq<Round>, k: nat)
    requires k < |done| && done[k].verdict.None?
    ensures Feedback(done[..k + 1]) == Feedback(done[..k])
  {
    assert done[..k + 1][..k] == done[..k];
  }

  /** When only non-empty structures are reviewed, the reviewer sees exactly those, in order. */
  lemma {:induction false} ReviewerSeesNonEmpty(done: seq<Round>)
    requires forall k :: 0 <= k < |done| ==> (done[k].verdict.None? <==> done[k].structure == map[])
    ensures ReviewerCalls(done) == NonEmptyStructures(done)
    decreases |done|
  {
    if done != [] {
      ReviewerSeesNonEmpty(done[..|done| - 1]);
    }
  }

  /** In a run the reviewer is called on exactly the non-empty structures. */
  lemma ReviewerCallsOfRun(s: Script, maxRetries: nat)
    ensures ReviewerCalls(Run(s, maxRetries)) == NonEmptyStructures(Run(s, maxRetries))
  {
    var r := Run(s, maxRetries);
    forall k | 0 <= k < |r|
      ensures r[k].verdict.None? <==> r[k].structure == map[]
    {
      AttemptSource(s, maxRetries, k);
    }
    ReviewerSeesNonEmpty(r);
  }

  /** Counting the non-empty structures among all attempts. */
  lemma {:induction false} AllNonEmpty(done: seq<Round>)
    requires forall k :: 0 <= k < |done| ==> done[k].structure != map[]
    ensures |NonEmptyStructures(done)| == |done|
    decreases |done|
  {
    if done != [] {
      AllNonEmpty(done[..|done| - 1]);
    }
  }

  /**
   * A reviewer that never approves, with architect and refiner always producing
   * a structure: max_retries attempts, max_retries - 1 refiner calls and
   * max_retries reviews.
   */
  lemma AlwaysRejected(s: Script, maxRetries: nat)
    requires maxRetries >= 1
    requires s.architect != map[]
    requires forall i :: s.refine(i) != map[]
    requires forall i :: !Truthy(s.review(i).approved)
    ensures |Run(s, maxRetries)| == maxRetries
    ensures |RefinerCalls(Run(s, maxRetries))| == maxRetries - 1
    ensures |ReviewerCalls(Run(s, maxRetries))| == maxRetries
  {
    var r := Run(s, maxRetries);
    AttemptBounds(s, maxRetries);
    forall k | 0 <= k < |r|
      ensures r[k].structure != map[] && !Approved(r[k])
    {
      AttemptSource(s, maxRetries, k);
    }
    NoApprovalUsesAllAttempts(s, maxRetries);
    ReviewerCallsOfRun(s, maxRetries);
    AllNonEmpty(r);
  }

  // ---------------- The factory object ----------------

  /** The model's replies by call number on this object; the extractor's is a function of its excerpt. */
  datatype Replies = Replies(summary: string -> string, architect: nat -> string, refiner: nat -> string, reviewer: nat -> string)

  /** The library calls the model leaves abstract: json.loads, str() of a JSON value, Jinja2 rendering. */
  datatype Library = Library(decode: Decoder, format: Json -> string, render: (string, Object) -> string)

  datatype WorkflowError =
    | ConversionFailed(reason: string)  // re-raised from pymupdf4llm.to_markdown
    | NoContent                         // ValueError("Failed to extract PDF content")
    | TemplateNotFound(message: string) // FileNotFoundError from agent_5_builder

  /** The builder's result as the workflow returns it: the page, or its FileNotFoundError. */
  function Outcome(html: Result<string, string>): (r: Result<string, WorkflowError>)
    ensures r.Success? <==> html.Success?
    ensures html.Success? ==> r.value == html.value
    ensures html.Failure? ==> r.error == TemplateNotFound(html.error)
  {
    match html
    case Success(page) => Success(page)
    case Failure(msg) => Failure(TemplateNotFound(msg))
  }

  class Factory {
    const maxRetries: nat
    const llm: Replies
    const lib: Library
    const templates: seq<Entry>
    /** What the extractor returns for a conversion result. */
    const extractorOut: Result<string, string> -> Result<Object, string>
    /** What each agent returns on its i-th call: the reply run through _extract_json or the reviewer's projection. */
    const architectOut: nat -> Object
    const refinerOut: nat -> Object
    const reviewerOut: nat -> Verdict
    /** Every call made to each agent on this object, with its arguments. */
    var architectLog: seq<(Object, string)>
    var refinerLog: seq<(Object, Json)>
    var reviewerLog: seq<Object>
    var builderLog: seq<Object>

    constructor (maxRetries: nat, llm: Replies, lib: Library, templates: seq<Entry>)
      ensures this.maxRetries == maxRetries && this.llm == llm && this.lib == lib && this.templates == templates
      ensures architectLog == [] && refinerLog == [] && reviewerLog == [] && builderLog == []
      ensures Valid()
    {
      this.maxRetries := maxRetries;
      this.llm := llm;
      this.lib := lib;
      this.templates := templates;
      extractorOut := (c: Result<string, string>) => Summarize(c, llm.summary, lib.decode);
      architectOut := (i: nat) => Fences.ExtractJson(lib.decode, llm.architect(i));
      refinerOut := (i: nat) => Fences.ExtractJson(lib.decode, llm.refiner(i));
      reviewerOut := (i: nat) => Review(lib.decode, llm.reviewer(i));
      architectLog, refinerLog, reviewerLog, builderLog := [], [], [], [];
    }

    /** The agents' outputs are their replies parsed as the source parses them. */
    ghost predicate Valid() {
      && (forall c :: extractorOut(c) == Summarize(c, llm.summary, lib.decode))
      && (forall i: nat :: architectOut(i) == Fences.ExtractJson(lib.decode, llm.architect(i)))
      && (forall i: nat :: refinerOut(i) == Fences.ExtractJson(lib.decode, llm.refiner(i)))
      && (forall i: nat :: reviewerOut(i) == Review(lib.decode, llm.reviewer(i)))
    }

    /** The extractor never returns an empty summary, so the "no content" abort cannot happen. */
    lemma ExtractedNeverEmpty(converted: Result<string, string>)
      requires Valid()
      ensures extractorOut(converted) != Success(map[])
    {
    }

    /** The replies a run sees, given how many calls each agent had received before it. */
    function ScriptFrom(architects: nat, refiners: nat, reviewers: nat): Script {
      Script(architectOut(architects), refinerOut, reviewerOut, refiners, reviewers)
    }

    method Extractor(converted: Result<string, string>) returns (summary: Result<Object, string>)
      ensures summary == extractorOut(converted)
    {
      summary := extractorOut(converted);
    }

    method Architect(summary: Object, gameType: string) returns (gs: Object)
      modifies this`architectLog
      ensures architectLog == old(architectLog) + [(summary, gameType)]
      ensures gs == architectOut(|old(architectLog)|)
    {
      gs := architectOut(|architectLog|);
      architectLog := architectLog + [(summary, gameType)];
    }

    method Refiner(gs: Object, feedback: Json, summary: Object) returns (refined: Object)
      modifies this`refinerLog
      ensures refinerLog == old(refinerLog) + [(gs, feedback)]
      ensures refined == refinerOut(|old(refinerLog)|)
    {
      refined := refinerOut(|refinerLog|);
      refinerLog := refinerLog + [(gs, feedback)];
    }

    method Reviewer(gs: Object, summary: Object) returns (approved: Json, feedback: Json)
      modifies this`reviewerLog
      ensures reviewerLog == old(reviewerLog) + [gs]
      ensures Verdict(approved, feedback) == reviewerOut(|old(reviewerLog)|)
    {
      var v := reviewerOut(|reviewerLog|);
      approved, feedback := v.approved, v.feedback;
      reviewerLog := reviewerLog + [gs];
    }

    method Builder(gs: Object) returns (html: Result<string, string>)
      modifies this`builderLog
      ensures builderLog == old(builderLog) + [gs]
      ensures html == Build(gs, templates, lib.format, lib.render)
    {
      html := Build(gs, templates, lib.format, lib.render);
      builderLog := builderLog + [gs];
    }

    /**
     * What the loop keeps between attempts: the structure and feedback variables
     * and every agent call so far, as the attempts `done` of the run with script
     * `script` determine them.
     */
    ghost predicate Tracks(script: Script, done: seq<Round>, gameStructure: Option<Object>, feedback: Json,
                           summary: Object, gameType: string,
                           a: seq<(Object, string)>, f: seq<(Object, Json)>, v: seq<Object>)
      reads this
    {
      && script == ScriptFrom(|a|, |f|, |v|)
      && gameStructure == (if done == [] then None else Some(Last(done).structure))
      && feedback == Feedback(done)
      && architectLog == a + (if done == [] then [] else [(summary, gameType)])
      && refinerLog == f + RefinerCalls(done)
      && reviewerLog == v + ReviewerCalls(done)
    }

    /**
     * The body of the loop: architect on the first attempt, refiner afterwards;
     * an empty structure skips the review (`continue`), otherwise the reviewer
     * runs and `feedback` takes its verdict's feedback.
     */
    method OneAttempt(ghost script: Script, ghost done: seq<Round>,
                      ghost a: seq<(Object, string)>, ghost f: seq<(Object, Json)>, ghost v: seq<Object>,
                      attempt: nat, summary: Object, gameType: string, gameStructure: Option<Object>, feedback: Json)
      returns (gs: Object, approved: bool, newFeedback: Json, ghost round: Round)
      requires attempt == |done| + 1
      requires Tracks(script, done, gameStructure, feedback, summary, gameType, a, f, v)
      modifies this`architectLog, this`refinerLog, this`reviewerLog
      ensures round == NextRound(script, done)
      ensures gs == round.structure && approved == Approved(round)
      ensures Tracks(script, done + [round], Some(gs), newFeedback, summary, gameType, a, f, v)
    {
      round := NextRound(script, done);
      RoundAppended(done, round);
      if attempt == 1 {
        AppendNil(a);
        gs := Architect(summary, gameType);
      } else {
        Assoc(f, RefinerCalls(done), [(gameStructure.value, feedback)]);
        gs := Refiner(gameStructure.value, feedback, summary);
      }
      if gs == map[] {
        return gs, false, feedback, round;
      }
      Assoc(v, ReviewerCalls(done), [gs]);
      var ok, fb := Reviewer(gs, summary);
      approved, newFeedback := Truthy(ok), fb;
    }

    /**
     * The workflow. Each agent call is recorded in its log, so the contract
     * fixes how often each agent ran and on what, in terms of Run.
     */
    method RunDiamondWorkflow(converted: Result<string, string>, gameType: string) returns (r: Result<string, WorkflowError>)
      requires maxRetries >= 1
      modifies this
      ensures extractorOut(converted).Failure? ==> r == Failure(ConversionFailed(extractorOut(converted).error))
      ensures extractorOut(converted) == Success(map[]) ==> r == Failure(NoContent)
      ensures (extractorOut(converted).Failure? || extractorOut(converted).value == map[]) ==>
        architectLog == old(architectLog) && refinerLog == old(refinerLog) &&
        reviewerLog == old(reviewerLog) && builderLog == old(builderLog)
      ensures extractorOut(converted).Success? && extractorOut(converted).value != map[] ==>
        var run := Run(ScriptFrom(old(|architectLog|), old(|refinerLog|), old(|reviewerLog|)), maxRetries);
        var summary := extractorOut(converted).value;
        && run != []
        && architectLog == old(architectLog) + [(summary, gameType)]
        && refinerLog == old(refinerLog) + RefinerCalls(run)
        && reviewerLog == old(reviewerLog) + ReviewerCalls(run)
        && builderLog == old(builderLog) + [Last(run).structure]
        && r == Outcome(Build(Last(run).structure, templates, lib.format, lib.render))
    {
      var extracted := Extractor(converted);
      if extracted.Failure? {
        return Failure(ConversionFailed(extracted.error));
      }
      var summary := extracted.value;
      if summary == map[] {
        return Failure(NoContent);
      }

      ghost var script := ScriptFrom(|architectLog|, |refinerLog|, |reviewerLog|);
      ghost var done: seq<Round> := [];
      ghost var run := Run(script, maxRetries);
      ghost var a0, f0, v0, b0 := architectLog, refinerLog, reviewerLog, builderLog;
      var attempt: nat := 0;
      var gameStructure: Option<Object> := None;
      var feedback: Json := JStr("");
      while attempt < maxRetries
        invariant attempt <= maxRetries && |done| == attempt
        invariant |done| <= |run| && run[..|done|] == done
        invariant !Stopped(done)
        invariant Tracks(script, done, gameStructure, feedback, summary, gameType, a0, f0, v0)
        invariant builderLog == b0
      {
        RunContinues(script, maxRetries, done);
        attempt := attempt + 1;
        var gs, approved, fb, round := OneAttempt(script, done, a0, f0, v0, attempt, summary, gameType, gameStructure, feedback);
        gameStructure, feedback := Some(gs), fb;
        done := done + [round];
        if approved {
          break;
        }
      }
      RunEnds(script, maxRetries, done);
      var html := Builder(gameStructure.value);
      r := Outcome(html);
    }
  }
}
