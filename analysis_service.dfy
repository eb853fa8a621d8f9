/**
 * The analysis service's request handlers over its two in-memory maps,
 * `submissions` and `evaluations`, keyed by submission id.
 *
 * `POST /analyze` is split at its one `await` into Begin (validate, hash,
 * record the submission as analyzing) and then Complete (store the
 * evaluation, mark the submission completed), unless the analysis throws, so
 * that the state a reader sees while an analysis is in flight is a state of
 * the model. The digest and the clock are not modelled: the registry is
 * given a digest function, and each handler is given the time it reads.
 */
module AnalysisService {
  import opened Wrappers
  import CodeAnalyzer

  /** An ISO 8601 time as `new Date().toISOString()` writes it. */
  type Timestamp = string

  datatype Status = Analyzing | Completed

  datatype Submission = Submission(codeHash: string, timestamp: Timestamp, status: Status)

  /** An evaluation: the analysis results with the hash of the code and the time they were stored (its status is always completed). */
  datatype Evaluation = Evaluation(results: CodeAnalyzer.AnalysisResult, codeHash: string, timestamp: Timestamp)

  /** The error responses: 400, 404 and 500. */
  datatype HttpError = BadRequest | NotFound | ServerError

  /** What `POST /analyze` carries across its `await`. */
  datatype Ticket = Ticket(submissionId: string, code: string, codeHash: string)

  /** The body of a successful `POST /analyze` (its status is always completed). */
  datatype AnalyzeResponse = AnalyzeResponse(submissionId: string, codeHash: string, results: CodeAnalyzer.AnalysisResult)

  datatype Stats = Stats(totalSubmissions: nat, completedAnalyses: nat, pendingAnalyses: int)

  /** A request field passes `!field` when it is present and, being a string, not empty. */
  predicate Present(field: Option<string>) {
    field.Some? && field.value != ""
  }

  /** Taking a subset's elements out of a set leaves as many as the sizes differ by. */
  lemma {:induction false} DifferenceSize<T>(a: set<T>, b: set<T>)
    requires b <= a
    ensures |a - b| == |a| - |b|
    decreases |b|
  {
    if b != {} {
      var x :| x in b;
      DifferenceSize(a - {x}, b - {x});
      assert (a - {x}) - (b - {x}) == a - b;
    }
  }

  /** Writing a key twice leaves only the second value. */
  lemma OverwriteTwice<K, V>(m: map<K, V>, k: K, first: V, second: V)
    ensures m[k := first][k := second] == m[k := second]
  {
  }

  class Registry {
    /** `crypto.createHash('sha256').update(code).digest('hex')`, taken as given. */
    const digest: string -> string
    var submissions: map<string, Submission>
    var evaluations: map<string, Evaluation>

    /**
     * Every evaluation belongs to a recorded submission (nothing is ever
     * deleted, and an evaluation is stored only after its submission), and a
     * submission marked completed has an evaluation.
     */
    ghost predicate Valid()
      reads this
    {
      evaluations.Keys <= submissions.Keys &&
      forall id :: id in submissions && submissions[id].status == Completed ==> id in evaluations
    }

    /** The two maps as the service starts: empty. */
    constructor (digest: string -> string)
      ensures Valid() && this.digest == digest
      ensures submissions == map[] && evaluations == map[]
    {
      this.digest := digest;
      submissions := map[];
      evaluations := map[];
    }

    /**
     * `POST /analyze` up to its `await`: reject a missing or empty field
     * with 400 and change nothing; otherwise hash the code and record the
     * submission as analyzing, replacing whatever was recorded under that
     * id, and leave the evaluations as they were.
     */
    method Begin(code: Option<string>, submissionId: Option<string>, now: Timestamp)
      returns (r: Result<Ticket, HttpError>)
      requires Valid()
      modifies this
      ensures Valid()
      ensures !Present(code) || !Present(submissionId) ==>
        r == Failure(BadRequest) && submissions == old(submissions) && evaluations == old(evaluations)
      ensures Present(code) && Present(submissionId) ==>
        r == Success(Ticket(submissionId.value, code.value, digest(code.value))) &&
        submissions == old(submissions)[submissionId.value := Submission(digest(code.value), now, Analyzing)] &&
        evaluations == old(evaluations)
    {
      if !Present(code) || !Present(submissionId) {
        return Failure(BadRequest);
      }
      var codeHash := digest(code.value);
      submissions := submissions[submissionId.value := Submission(codeHash, now, Analyzing)];
      r := Success(Ticket(submissionId.value, code.value, codeHash));
    }

    /**
     * `POST /analyze` after its `await`: store the evaluation with the
     * ticket's hash, then rewrite the submission now under the id with its
     * status completed, keeping its hash and timestamp.
     */
    method Complete(t: Ticket, results: CodeAnalyzer.AnalysisResult, now: Timestamp)
      returns (response: AnalyzeResponse)
      requires Valid() && t.submissionId in submissions
      modifies this
      ensures Valid()
      ensures evaluations == old(evaluations)[t.submissionId := Evaluation(results, t.codeHash, now)]
      ensures submissions == old(submissions)[t.submissionId := old(submissions)[t.submissionId].(status := Completed)]
      ensures submissions[t.submissionId].codeHash == old(submissions)[t.submissionId].codeHash
      ensures submissions[t.submissionId].timestamp == old(submissions)[t.submissionId].timestamp
      ensures response == AnalyzeResponse(t.submissionId, t.codeHash, results)
    {
      evaluations := evaluations[t.submissionId := Evaluation(results, t.codeHash, now)];
      submissions := submissions[t.submissionId := submissions[t.submissionId].(status := Completed)];
      response := AnalyzeResponse(t.submissionId, t.codeHash, results);
    }

    /** `POST /analyze` from its `await` on: run the analysis of the ticket's code and complete it. */
    method Finish(t: Ticket, finished: Timestamp) returns (response: AnalyzeResponse)
      requires Valid() && t.submissionId in submissions
      modifies this
      ensures Valid()
      ensures response == AnalyzeResponse(t.submissionId, t.codeHash, CodeAnalyzer.AnalysisOf(t.code))
      ensures evaluations
           == old(evaluations)[t.submissionId := Evaluation(CodeAnalyzer.AnalysisOf(t.code), t.codeHash, finished)]
      ensures submissions == old(submissions)[t.submissionId := old(submissions)[t.submissionId].(status := Completed)]
    {
      var results := CodeAnalyzer.Analyze(t.code);
      response := Complete(t, results, finished);
    }

    /**
     * `POST /analyze` from its `await` on, given what happened before it: a
     * 400 passes through, an analysis that throws answers 500 and changes
     * nothing, and otherwise the analysis is stored and answered.
     */
    method Conclude(begun: Result<Ticket, HttpError>, finished: Timestamp, fault: bool)
      returns (r: Result<AnalyzeResponse, HttpError>)
      requires Valid() && (begun.Success? ==> begun.value.submissionId in submissions)
      modifies this
      ensures Valid()
      ensures begun.Failure? ==> r == Failure(begun.error) && submissions == old(submissions) && evaluations == old(evaluations)
      ensures begun.Success? && fault ==>
        r == Failure(ServerError) && submissions == old(submissions) && evaluations == old(evaluations)
      ensures begun.Success? && !fault ==>
        var t := begun.value;
        var results := CodeAnalyzer.AnalysisOf(t.code);
        r == Success(AnalyzeResponse(t.submissionId, t.codeHash, results)) &&
        submissions == old(submissions)[t.submissionId := old(submissions)[t.submissionId].(status := Completed)] &&
        evaluations == old(evaluations)[t.submissionId := Evaluation(results, t.codeHash, finished)]
    {
      if begun.Failure? {
        r := Failure(begun.error);
      } else if fault {
        r := Failure(ServerError);
      } else {
        var response := Finish(begun.value, finished);
        r := Success(response);
      }
    }

    /** The whole of `POST /analyze`; `fault` says whether the analysis throws, which sends it to the catch block. */
    method HandleAnalyze(code: Option<string>, submissionId: Option<string>,
                         started: Timestamp, finished: Timestamp, fault: bool)
      returns (r: Result<AnalyzeResponse, HttpError>)
      requires Valid()
      modifies this
      ensures Valid()
      ensures !Present(code) || !Present(submissionId) ==>
        r == Failure(BadRequest) && submissions == old(submissions) && evaluations == old(evaluations)
      ensures Present(code) && Present(submissionId) && fault ==>
        r == Failure(ServerError) &&
        submissions == old(submissions)[submissionId.value := Submission(digest(code.value), started, Analyzing)] &&
        evaluations == old(evaluations)
      ensures Present(code) && Present(submissionId) && !fault ==>
        var results := CodeAnalyzer.AnalysisOf(code.value);
        r == Success(AnalyzeResponse(submissionId.value, digest(code.value), results)) &&
        submissions == old(submissions)[submissionId.value := Submission(digest(code.value), started, Completed)] &&
        evaluations == old(evaluations)[submissionId.value := Evaluation(results, digest(code.value), finished)]
    {
      ghost var before := submissions;
      var begun := Begin(code, submissionId, started);
      r := Conclude(begun, finished, fault);
      if begun.Success? {
        OverwriteTwice(before, submissionId.value,
          Submission(digest(code.value), started, Analyzing), Submission(digest(code.value), started, Completed));
      }
    }

    /** `GET /analysis/:submissionId`: the evaluation, or 404. */
    method GetAnalysis(submissionId: string) returns (r: Result<Evaluation, HttpError>)
      ensures submissionId in evaluations ==> r == Success(evaluations[submissionId])
      ensures submissionId !in evaluations ==> r == Failure(NotFound)
    {
      if submissionId !in evaluations {
        return Failure(NotFound);
      }
      r := Success(evaluations[submissionId]);
    }

    /** `GET /submission/:submissionId`: the submission, or 404. */
    method GetSubmission(submissionId: string) returns (r: Result<Submission, HttpError>)
      ensures submissionId in submissions ==> r == Success(submissions[submissionId])
      ensures submissionId !in submissions ==> r == Failure(NotFound)
    {
      if submissionId !in submissions {
        return Failure(NotFound);
      }
      r := Success(submissions[submissionId]);
    }

    /**
     * `GET /stats`. The pending count is the size difference of the two
     * maps; since every evaluation has a submission, it is the number of
     * submissions without an evaluation, and never negative.
     */
    method GetStats() returns (s: Stats)
      requires Valid()
      ensures s.totalSubmissions == |submissions| && s.completedAnalyses == |evaluations|
      ensures s.pendingAnalyses == |submissions.Keys - evaluations.Keys| >= 0
    {
      DifferenceSize(submissions.Keys, evaluations.Keys);
      s := Stats(|submissions|, |evaluations|, |submissions| - |evaluations|);
    }
  }

  /**
   * In any state the service can reach, an id nothing was ever submitted
   * under answers 404 to both lookups: it has no submission, and so no
   * evaluation either.
   */
  method LookupsOfUnsubmittedId(registry: Registry, submissionId: string)
    returns (submission: Result<Submission, HttpError>, evaluation: Result<Evaluation, HttpError>)
    requires registry.Valid() && submissionId !in registry.submissions
    ensures submission == Failure(NotFound) && evaluation == Failure(NotFound)
  {
    submission := registry.GetSubmission(submissionId);
    evaluation := registry.GetAnalysis(submissionId);
  }

  /**
   * Resubmitting under an id that already has an evaluation: while the new
   * analysis is in flight the old evaluation, with the old hash, is still
   * served, beside a submission that is analyzing the new code; if the new
   * analysis fails, that pair stays.
   */
  method StaleEvaluationDuringResubmission(digest: string -> string, first: string, second: string, submissionId: string)
    returns (submission: Submission, evaluation: Evaluation)
    requires first != "" && second != "" && submissionId != ""
    ensures submission == Submission(digest(second), "t2", Analyzing)
    ensures evaluation == Evaluation(CodeAnalyzer.AnalysisOf(first), digest(first), "t1'")
  {
    var registry := new Registry(digest);
    var done := registry.HandleAnalyze(Some(first), Some(submissionId), "t1", "t1'", false);
    var failed := registry.HandleAnalyze(Some(second), Some(submissionId), "t2", "t2'", true);
    submission := registry.submissions[submissionId];
    evaluation := registry.evaluations[submissionId];
  }

  /**
   * Two analyses for one id whose `await`s overlap: the first to finish
   * stores its own hash in the evaluation, but completes the submission the
   * second one wrote, so a completed submission and its evaluation can
   * disagree on the hash.
   */
  method InterleavedResubmission(digest: string -> string, first: string, second: string, submissionId: string)
    returns (submission: Submission, evaluation: Evaluation)
    requires first != "" && second != "" && submissionId != ""
    ensures submission == Submission(digest(second), "t2", Completed)
    ensures evaluation.codeHash == digest(first)
  {
    var registry := new Registry(digest);
    var one := registry.Begin(Some(first), Some(submissionId), "t1");
    var two := registry.Begin(Some(second), Some(submissionId), "t2");
    var results := CodeAnalyzer.Analyze(first);
    var response := registry.Complete(one.value, results, "t3");
    submission := registry.submissions[submissionId];
    evaluation := registry.evaluations[submissionId];
  }
}
