/** api.py: the claims endpoint. It checks the bearer token, downloads every document
    (aborting the request at the first download that fails), and answers the questions
    one by one, turning each failure into an answer string instead of failing the
    request. */
module Api {
  import opened Text
  import opened Http

  /** A page of a loaded PDF. */
  type Page = string

  const ApiKeyError := "Invalid or missing API key"
  const NoDocuments := "No valid documents could be processed."
  const ChainFailure := "Failed to create RAG processing chain."
  const ErrorPrefix := "Error: "
  const NoAnalysis := ErrorPrefix + "Failed to generate a valid analysis object."
  const ExceptionPrefix := ErrorPrefix + "An exception occurred: "

  // ---------------------------------------------------------------------------------
  // Authentication
  // ---------------------------------------------------------------------------------

  datatype Auth = Authorized(token: string) | Unauthorized(status: int, detail: string)

  /** `verify_api_key`: `configured` is `HACKRX_API_KEY` (missing or set) and `token` the
      bearer credentials. An unset or empty key rejects every token. */
  function VerifyApiKey(configured: Option<string>, token: string): (r: Auth)
    ensures r.Authorized? <==> configured == Some(token) && token != ""
    ensures r.Authorized? ==> r.token == token
    ensures r.Unauthorized? ==> r == Unauthorized(401, ApiKeyError)
  {
    if configured.None? || configured.value == "" || token != configured.value then
      Unauthorized(401, ApiKeyError)
    else Authorized(token)
  }

  // ---------------------------------------------------------------------------------
  // The documents field
  // ---------------------------------------------------------------------------------

  /** `documents`: one URL or a list of URLs. */
  datatype Documents = One(url: string) | Many(urls: seq<string>)

  /** The list the download loop walks: a lone URL becomes a one-element list, a list
      is taken as it is (empty, or with repeats). */
  function DocumentUrls(d: Documents): (r: seq<string>)
    ensures d.One? ==> r == [d.url]
    ensures d.Many? ==> r == d.urls
  {
    match d
    case One(u) => [u]
    case Many(us) => us
  }

  // ---------------------------------------------------------------------------------
  // Ingestion
  // ---------------------------------------------------------------------------------

  /** `f"Failed to download document from {doc_url}: {e}"`. */
  function DownloadDetail(url: string, error: string): string {
    "Failed to download document from " + url + ": " + error
  }

  /** Where ingestion stops: every page loaded; a `RequestException` (a failed request or
      an error status) turned into a 400 with `detail`; or an exception the loop does
      not catch, from the PDF loader, which leaves the request as a server error. */
  datatype Ingest = Loaded(pages: seq<Page>) | Refused(detail: string) | Crashed

  /** What the oracles of one request fix: the network, the text `str(e)` of the
      `HTTPError` that `raise_for_status` raises for a status on a URL, and what the PDF
      loader makes of the downloaded bytes (`None` when it raises). */
  datatype Loading = Loading(respond: (string, nat) -> Fetch, httpError: (int, string) -> string,
                             readPdf: string -> Option<seq<Page>>)

  /** One iteration of the download loop, for `url` as the `n`-th request. */
  function FetchDocument(ld: Loading, url: string, n: nat): (r: Ingest)
    ensures r.Refused? <==> ld.respond(url, n).Failed? || ErrorStatus(ld.respond(url, n).status)
    ensures r.Loaded? ==> ld.respond(url, n).Response? && ld.readPdf(ld.respond(url, n).content) == Some(r.pages)
  {
    DocumentOutcome(ld.httpError, ld.readPdf, url, ld.respond(url, n))
  }

  /** What the loop body makes of the reply `f` to the request for `url`. */
  function DocumentOutcome(httpError: (int, string) -> string, readPdf: string -> Option<seq<Page>>,
                           url: string, f: Fetch): Ingest {
    match f
    case Failed(e) => Refused(DownloadDetail(url, e))
    case Response(status, content) =>
      if ErrorStatus(status) then Refused(DownloadDetail(url, httpError(status, url)))
      else
        match readPdf(content)
        case None => Crashed
        case Some(pages) => Loaded(pages)
  }

  /** Pages loaded before the rest of the loop ran. */
  function Prepend(pages: seq<Page>, rest: Ingest): Ingest {
    if rest.Loaded? then Loaded(pages + rest.pages) else rest
  }

  /** The download loop over `urls`, the first being the `n`-th request: the pages of
      every document in order, or the first failure. */
  function Ingested(ld: Loading, urls: seq<string>, n: nat): Ingest
    decreases |urls|
  {
    if urls == [] then Loaded([])
    else
      var first := FetchDocument(ld, urls[0], n);
      if first.Loaded? then Prepend(first.pages, Ingested(ld, urls[1..], n + 1)) else first
  }

  /** How many requests the download loop makes: up to and including the first failure. */
  function Tried(ld: Loading, urls: seq<string>, n: nat): (r: nat)
    ensures r <= |urls|
    decreases |urls|
  {
    if urls == [] then 0
    else if FetchDocument(ld, urls[0], n).Loaded? then 1 + Tried(ld, urls[1..], n + 1)
    else 1
  }

  /** No partial success: the loop loads iff every document loads. */
  lemma {:induction false} IngestedLoadedIff(ld: Loading, urls: seq<string>, n: nat)
    ensures Ingested(ld, urls, n).Loaded?
            <==> forall i :: 0 <= i < |urls| ==> FetchDocument(ld, urls[i], n + i).Loaded?
    decreases |urls|
  {
    if urls != [] {
      IngestedLoadedIff(ld, urls[1..], n + 1);
      if Ingested(ld, urls, n).Loaded? {
        forall i | 0 <= i < |urls| ensures FetchDocument(ld, urls[i], n + i).Loaded? {
          if i > 0 { assert urls[1..][i - 1] == urls[i]; }
        }
      } else if FetchDocument(ld, urls[0], n).Loaded? {
        var j :| 0 <= j < |urls[1..]| && !FetchDocument(ld, urls[1..][j], n + 1 + j).Loaded?;
        assert urls[1..][j] == urls[j + 1];
      }
    }
  }

  /** The first document that does not load decides the outcome, and no later URL is
      requested. */
  lemma {:induction false} IngestStopsAtFirstFailure(ld: Loading, urls: seq<string>, n: nat, k: nat)
    requires k < |urls|
    requires forall i :: 0 <= i < k ==> FetchDocument(ld, urls[i], n + i).Loaded?
    requires !FetchDocument(ld, urls[k], n + k).Loaded?
    ensures Ingested(ld, urls, n) == FetchDocument(ld, urls[k], n + k)
    ensures Tried(ld, urls, n) == k + 1
    decreases k
  {
    if k > 0 {
      assert FetchDocument(ld, urls[0], n).Loaded?;
      forall i | 0 <= i < k - 1 ensures FetchDocument(ld, urls[1..][i], n + 1 + i).Loaded? {
        assert urls[1..][i] == urls[i + 1];
      }
      assert urls[1..][k - 1] == urls[k];
      IngestStopsAtFirstFailure(ld, urls[1..], n + 1, k - 1);
    }
  }

  /** When every document loads, every URL is requested once, in order. */
  lemma {:induction false} TriedAllWhenLoaded(ld: Loading, urls: seq<string>, n: nat)
    requires Ingested(ld, urls, n).Loaded?
    ensures Tried(ld, urls, n) == |urls|
    decreases |urls|
  {
    if urls != [] {
      TriedAllWhenLoaded(ld, urls[1..], n + 1);
    }
  }

  // ---------------------------------------------------------------------------------
  // Answering
  // ---------------------------------------------------------------------------------

  /** `result.get("answer")`: an `InsuranceAnalysis`, or anything else (a plain string,
      or nothing). */
  datatype AnswerObject = Analysis(justification: string) | NotAnalysis

  /** One `rag_chain.invoke` call: it raised (with `str(e)`), or it returned. */
  datatype Outcome = Raised(message: string) | Answered(answer: AnswerObject)

  /** `f"Error: An exception occurred: {str(e)}"`. */
  function ExceptionEntry(message: string): string {
    ExceptionPrefix + message
  }

  /** Whether the question's outcome leads to a `log_claim` call. */
  predicate Logs(o: Outcome) {
    o.Answered? && o.answer.Analysis?
  }

  /** The entry a question's outcome makes: the justification of an analysis, the
      fixed error for any other answer, or the exception text. */
  function Entry(o: Outcome): string {
    match o
    case Raised(e) => ExceptionEntry(e)
    case Answered(NotAnalysis) => NoAnalysis
    case Answered(Analysis(j)) => j
  }

  /** Only an analysis gives an entry other than an error message. */
  lemma {:induction false} EntryIsError(o: Outcome)
    requires !Logs(o)
    ensures |Entry(o)| >= |ErrorPrefix| && Entry(o)[..|ErrorPrefix|] == ErrorPrefix
  {
    if o.Raised? {
      assert ExceptionEntry(o.message) == ErrorPrefix + ("An exception occurred: " + o.message);
    }
  }

  /** The entries one question appends: its entry, and then the exception text when
      `log_claim` raises (`logged` holds the message), because both happen inside the
      one `try`. */
  function Entries(o: Outcome, logged: Option<string>): seq<string> {
    [Entry(o)] + (if logged.Some? then [ExceptionEntry(logged.value)] else [])
  }

  /** The answer list the question loop builds, when the first question is the chain's
      `n`-th call and the first claim logged is the log's `m`-th attempt; `reply` fixes
      what the chain does and `logFails` which attempts raise. */
  function AnswersFor(reply: (string, nat) -> Outcome, logFails: nat -> Option<string>,
                      qs: seq<string>, n: nat, m: nat): (r: seq<string>)
    ensures |r| >= |qs|
    decreases |qs|
  {
    if qs == [] then []
    else
      var o := reply(qs[0], n);
      var logged := if Logs(o) then logFails(m) else None;
      Entries(o, logged) + AnswersFor(reply, logFails, qs[1..], n + 1, if Logs(o) then m + 1 else m)
  }

  /** The claims passed to `log_claim`, in order: each question answered by an analysis,
      with its justification. */
  function LoggedFor(reply: (string, nat) -> Outcome, qs: seq<string>, n: nat): seq<(string, string)>
    decreases |qs|
  {
    if qs == [] then []
    else
      var o := reply(qs[0], n);
      (if Logs(o) then [(qs[0], o.answer.justification)] else []) + LoggedFor(reply, qs[1..], n + 1)
  }

  /** One turn of the question loop, unfolded. */
  lemma {:induction false} QuestionStep(reply: (string, nat) -> Outcome, logFails: nat -> Option<string>,
                     qs: seq<string>, i: nat, n: nat, m: nat)
    requires i < |qs|
    ensures var o := reply(qs[i], n);
            AnswersFor(reply, logFails, qs[i..], n, m)
            == Entries(o, if Logs(o) then logFails(m) else None)
               + AnswersFor(reply, logFails, qs[i + 1..], n + 1, if Logs(o) then m + 1 else m)
    ensures var o := reply(qs[i], n);
            LoggedFor(reply, qs[i..], n)
            == (if Logs(o) then [(qs[i], o.answer.justification)] else []) + LoggedFor(reply, qs[i + 1..], n + 1)
  {
    assert qs[i..][0] == qs[i] && qs[i..][1..] == qs[i + 1..];
  }

  /** While logging never fails, the answers line up with the questions: one per
      question, that question's entry, whatever happened to the others. */
  lemma {:induction false} AnswersLineUp(reply: (string, nat) -> Outcome, logFails: nat -> Option<string>,
                                         qs: seq<string>, n: nat, m: nat)
    requires forall k :: logFails(k).None?
    ensures |AnswersFor(reply, logFails, qs, n, m)| == |qs|
    ensures forall i :: 0 <= i < |qs| ==>
              AnswersFor(reply, logFails, qs, n, m)[i] == Entry(reply(qs[i], n + i))
    decreases |qs|
  {
    if qs != [] {
      var o := reply(qs[0], n);
      var m' := if Logs(o) then m + 1 else m;
      AnswersHead(reply, logFails, qs, n, m);
      AnswersLineUp(reply, logFails, qs[1..], n + 1, m');
      EntriesCons(reply, qs, n, AnswersFor(reply, logFails, qs, n, m), AnswersFor(reply, logFails, qs[1..], n + 1, m'));
    }
  }

  /** With logging that does not fail, the first question adds exactly its entry. */
  lemma {:induction false} AnswersHead(reply: (string, nat) -> Outcome, logFails: nat -> Option<string>,
                    qs: seq<string>, n: nat, m: nat)
    requires qs != [] && logFails(m).None?
    ensures var o := reply(qs[0], n);
            AnswersFor(reply, logFails, qs, n, m)
            == [Entry(o)] + AnswersFor(reply, logFails, qs[1..], n + 1, if Logs(o) then m + 1 else m)
  {
  }

  /** The entries of the first question followed by those of the rest, position by
      position. */
  lemma {:induction false} EntriesCons(reply: (string, nat) -> Outcome, qs: seq<string>, n: nat, r: seq<string>, rest: seq<string>)
    requires qs != [] && r == [Entry(reply(qs[0], n))] + rest && |rest| == |qs| - 1
    requires forall i :: 0 <= i < |qs| - 1 ==> rest[i] == Entry(reply(qs[1..][i], n + 1 + i))
    ensures |r| == |qs|
    ensures forall i :: 0 <= i < |qs| ==> r[i] == Entry(reply(qs[i], n + i))
  {
    forall i | 0 < i < |qs| ensures r[i] == Entry(reply(qs[i], n + i)) {
      assert r[i] == rest[i - 1] && qs[1..][i - 1] == qs[i];
    }
  }

  /** A failing `log_claim` puts an extra entry in the list, so the answers no longer
      line up with the questions. */
  lemma {:induction false} LogFailureShiftsAnswers(reply: (string, nat) -> Outcome, logFails: nat -> Option<string>,
                                q1: string, q2: string, n: nat, m: nat, j: string, e: string)
    requires reply(q1, n) == Answered(Analysis(j)) && logFails(m) == Some(e)
    requires reply(q2, n + 1) == Answered(NotAnalysis)
    ensures AnswersFor(reply, logFails, [q1, q2], n, m) == [j, ExceptionEntry(e), NoAnalysis]
  {
    assert [q1, q2][1..] == [q2] && [q2][1..] == [];
    assert AnswersFor(reply, logFails, [q2], n + 1, m + 1) == [NoAnalysis];
  }

  // ---------------------------------------------------------------------------------
  // Collaborators
  // ---------------------------------------------------------------------------------

  /** The chain `create_rag_chain` builds for the request: its `n`-th call, for
      `{"input": question}`, has outcome `reply(question, n)`. */
  class AnalysisChain {
    const reply: (string, nat) -> Outcome
    var asked: seq<string>

    constructor (reply: (string, nat) -> Outcome)
      ensures this.reply == reply && asked == []
    {
      this.reply := reply;
      asked := [];
    }

    method Invoke(question: string) returns (o: Outcome)
      modifies this
      ensures asked == old(asked) + [question]
      ensures o == reply(question, |old(asked)|)
    {
      o := reply(question, |asked|);
      asked := asked + [question];
    }
  }

  /** `log_claim` of db_utils.py: its `m`-th call raises with `fails(m)` when that is
      set; `attempts` records every call. */
  class ClaimLog {
    const fails: nat -> Option<string>
    var attempts: seq<(string, string)>

    constructor (fails: nat -> Option<string>)
      ensures this.fails == fails && attempts == []
    {
      this.fails := fails;
      attempts := [];
    }

    method LogClaim(question: string, justification: string) returns (error: Option<string>)
      modifies this
      ensures attempts == old(attempts) + [(question, justification)]
      ensures error == fails(|old(attempts)|)
    {
      error := fails(|attempts|);
      attempts := attempts + [(question, justification)];
    }
  }

  // ---------------------------------------------------------------------------------
  // The endpoint
  // ---------------------------------------------------------------------------------

  /** What the endpoint sends back: an `HTTPException`, an uncaught exception (a
      server error), or the answers. */
  datatype ApiReply = Rejected(status: int, detail: string) | ServerError | Answers(answers: seq<string>)

  /** Everything one call depends on besides its arguments: the configured key, the
      oracles of ingestion, whether `create_rag_chain` returns a chain for the pages
      loaded, the chain and the claim log; `n`, `c` and `m` count the requests, chain
      calls and log attempts made before it. */
  datatype Env = Env(apiKey: Option<string>, ld: Loading, buildsChain: seq<Page> -> bool,
                     reply: (string, nat) -> Outcome, logFails: nat -> Option<string>,
                     n: nat, c: nat, m: nat)

  /** `process_claims`, with `verify_api_key` run first as its dependency. */
  function Processed(env: Env, token: string, documents: Documents, questions: seq<string>): ApiReply {
    if VerifyApiKey(env.apiKey, token).Unauthorized? then Rejected(401, ApiKeyError)
    else
      match Ingested(env.ld, DocumentUrls(documents), env.n)
      case Refused(detail) => Rejected(400, detail)
      case Crashed => ServerError
      case Loaded(pages) =>
        if pages == [] then Rejected(400, NoDocuments)
        else if !env.buildsChain(pages) then Rejected(500, ChainFailure)
        else Answers(AnswersFor(env.reply, env.logFails, questions, env.c, env.m))
  }

  /** Answers come back only for an accepted token, after every document was downloaded
      and loaded, with at least one page, and with a chain built. */
  lemma {:induction false} AnswersOnlyWhenEverythingLoaded(env: Env, token: string, documents: Documents, questions: seq<string>)
    requires Processed(env, token, documents, questions).Answers?
    ensures env.apiKey == Some(token) && token != ""
    ensures forall i :: 0 <= i < |DocumentUrls(documents)| ==>
              FetchDocument(env.ld, DocumentUrls(documents)[i], env.n + i).Loaded?
    ensures Ingested(env.ld, DocumentUrls(documents), env.n).Loaded?
    ensures Ingested(env.ld, DocumentUrls(documents), env.n).pages != []
    ensures env.buildsChain(Ingested(env.ld, DocumentUrls(documents), env.n).pages)
  {
    IngestedLoadedIff(env.ld, DocumentUrls(documents), env.n);
  }

  /** A document that fails to download rejects the whole request with a 400 naming the
      first such URL, whatever the questions, when every document before it loaded. */
  lemma {:induction false} FailedDownloadRejects(env: Env, token: string, documents: Documents, questions: seq<string>, k: nat)
    requires VerifyApiKey(env.apiKey, token).Authorized?
    requires k < |DocumentUrls(documents)|
    requires forall i :: 0 <= i < k ==> FetchDocument(env.ld, DocumentUrls(documents)[i], env.n + i).Loaded?
    requires FetchDocument(env.ld, DocumentUrls(documents)[k], env.n + k).Refused?
    ensures Processed(env, token, documents, questions)
            == Rejected(400, FetchDocument(env.ld, DocumentUrls(documents)[k], env.n + k).detail)
  {
    IngestStopsAtFirstFailure(env.ld, DocumentUrls(documents), env.n, k);
  }

  /** The download loop before its first turn. */
  lemma {:induction false} IngestFrom(ld: Loading, urls: seq<string>, n: nat)
    ensures Ingested(ld, urls, n) == Prepend([], Ingested(ld, urls[0..], n))
    ensures Tried(ld, urls, n) == Tried(ld, urls[0..], n)
  {
    assert urls[0..] == urls;
    EmptyPrefix(if Ingested(ld, urls, n).Loaded? then Ingested(ld, urls, n).pages else []);
  }

  /** One turn of the download loop, at position `i`: a document that loads adds its
      pages and moves on; any other outcome is the result, after `i + 1` requests. */
  lemma {:induction false} IngestStep(ld: Loading, urls: seq<string>, i: nat, n: nat, pages: seq<Page>)
    requires i < |urls|
    ensures var step := FetchDocument(ld, urls[i], n + i);
            && (step.Loaded? ==>
                  && Prepend(pages, Ingested(ld, urls[i..], n + i))
                     == Prepend(pages + step.pages, Ingested(ld, urls[i + 1..], n + i + 1))
                  && Tried(ld, urls[i..], n + i) == 1 + Tried(ld, urls[i + 1..], n + i + 1))
            && (!step.Loaded? ==>
                  Prepend(pages, Ingested(ld, urls[i..], n + i)) == step && Tried(ld, urls[i..], n + i) == 1)
  {
    assert urls[i..][0] == urls[i] && urls[i..][1..] == urls[i + 1..];
    var step := FetchDocument(ld, urls[i], n + i);
    var rest := Ingested(ld, urls[i + 1..], n + i + 1);
    if step.Loaded? && rest.Loaded? {
      Associative(pages, step.pages, rest.pages);
    }
  }

  /** The download loop after its last turn. */
  lemma {:induction false} IngestDone(ld: Loading, urls: seq<string>, pages: seq<Page>, n: nat)
    requires Ingested(ld, urls, n) == Prepend(pages, Ingested(ld, urls[|urls|..], n + |urls|))
    requires Tried(ld, urls, n) == |urls| + Tried(ld, urls[|urls|..], n + |urls|)
    ensures Ingested(ld, urls, n) == Loaded(pages) && urls[..Tried(ld, urls, n)] == urls
  {
    assert urls[|urls|..] == [] && urls[..|urls|] == urls;
    EmptySuffix(pages);
  }

  /** The question loop before its first turn. */
  lemma {:induction false} AnswersFrom(reply: (string, nat) -> Outcome, logFails: nat -> Option<string>,
                    qs: seq<string>, n: nat, m: nat, attempts: seq<(string, string)>)
    ensures AnswersFor(reply, logFails, qs, n, m) == [] + AnswersFor(reply, logFails, qs[0..], n, m)
    ensures attempts + LoggedFor(reply, qs, n) == attempts + LoggedFor(reply, qs[0..], n)
  {
    assert qs[0..] == qs;
    EmptyPrefix(AnswersFor(reply, logFails, qs, n, m));
  }

  /** One turn of the question loop, at position `i`: the entries of question `i` join
      the answers, and its claim, if any, the log. */
  lemma {:induction false} AnswerStep(reply: (string, nat) -> Outcome, logFails: nat -> Option<string>,
                   qs: seq<string>, i: nat, n: nat, answers: seq<string>, entries: seq<string>,
                   before: seq<(string, string)>, after: seq<(string, string)>)
    requires i < |qs|
    requires var o := reply(qs[i], n);
             && entries == Entries(o, if Logs(o) then logFails(|before|) else None)
             && after == before + (if Logs(o) then [(qs[i], o.answer.justification)] else [])
    ensures answers + AnswersFor(reply, logFails, qs[i..], n, |before|)
            == (answers + entries) + AnswersFor(reply, logFails, qs[i + 1..], n + 1, |after|)
    ensures before + LoggedFor(reply, qs[i..], n) == after + LoggedFor(reply, qs[i + 1..], n + 1)
  {
    var o := reply(qs[i], n);
    var m' := if Logs(o) then |before| + 1 else |before|;
    assert |after| == m';
    AnswersUnfold(reply, logFails, qs, i, n, |before|, entries);
    Associative(answers, entries, AnswersFor(reply, logFails, qs[i + 1..], n + 1, m'));
    LoggedUnfold(reply, qs, i, n, before, after);
  }

  /** `AnswersFor` from position `i`: the entries of question `i`, then the rest. */
  lemma {:induction false} AnswersUnfold(reply: (string, nat) -> Outcome, logFails: nat -> Option<string>,
                      qs: seq<string>, i: nat, n: nat, m: nat, entries: seq<string>)
    requires i < |qs|
    requires var o := reply(qs[i], n); entries == Entries(o, if Logs(o) then logFails(m) else None)
    ensures var o := reply(qs[i], n);
            AnswersFor(reply, logFails, qs[i..], n, m)
            == entries + AnswersFor(reply, logFails, qs[i + 1..], n + 1, if Logs(o) then m + 1 else m)
  {
    assert qs[i..][0] == qs[i] && qs[i..][1..] == qs[i + 1..];
  }

  /** `LoggedFor` from position `i`: the claim of question `i`, if any, then the rest. */
  lemma {:induction false} LoggedUnfold(reply: (string, nat) -> Outcome, qs: seq<string>, i: nat, n: nat,
                     before: seq<(string, string)>, after: seq<(string, string)>)
    requires i < |qs|
    requires var o := reply(qs[i], n);
             after == before + (if Logs(o) then [(qs[i], o.answer.justification)] else [])
    ensures before + LoggedFor(reply, qs[i..], n) == after + LoggedFor(reply, qs[i + 1..], n + 1)
  {
    assert qs[i..][0] == qs[i] && qs[i..][1..] == qs[i + 1..];
    var o := reply(qs[i], n);
    Associative(before, if Logs(o) then [(qs[i], o.answer.justification)] else [], LoggedFor(reply, qs[i + 1..], n + 1));
  }

  /** The question loop after its last turn. */
  lemma {:induction false} AnswersDone(reply: (string, nat) -> Outcome, logFails: nat -> Option<string>,
                    qs: seq<string>, n: nat, m: nat, answers: seq<string>, attempts: seq<(string, string)>)
    ensures answers + AnswersFor(reply, logFails, qs[|qs|..], n, m) == answers
    ensures attempts + LoggedFor(reply, qs[|qs|..], n) == attempts
  {
    assert qs[|qs|..] == [];
    EmptySuffix(answers);
    EmptySuffix(attempts);
  }

  /** The FastAPI application: the configured key, the PDF loader and the `HTTPError`
      text, whether `create_rag_chain` succeeds, the network, the chain and the claim
      log. */
  class HackRxApi {
    const apiKey: Option<string>
    const httpError: (int, string) -> string
    const readPdf: string -> Option<seq<Page>>
    const buildsChain: seq<Page> -> bool
    const web: Web
    const chain: AnalysisChain
    const claims: ClaimLog

    constructor (apiKey: Option<string>, httpError: (int, string) -> string, readPdf: string -> Option<seq<Page>>,
                 buildsChain: seq<Page> -> bool, web: Web, chain: AnalysisChain, claims: ClaimLog)
      ensures this.apiKey == apiKey && this.httpError == httpError && this.readPdf == readPdf
      ensures this.buildsChain == buildsChain && this.web == web && this.chain == chain && this.claims == claims
    {
      this.apiKey := apiKey;
      this.httpError := httpError;
      this.readPdf := readPdf;
      this.buildsChain := buildsChain;
      this.web := web;
      this.chain := chain;
      this.claims := claims;
    }

    function Oracles(): Loading {
      Loading(web.respond, httpError, readPdf)
    }

    /** The environment of the next call, given the counts of requests, chain calls and
        log attempts so far. */
    function EnvAt(n: nat, c: nat, m: nat): Env {
      Env(apiKey, Oracles(), buildsChain, chain.reply, claims.fails, n, c, m)
    }

    /** `process_claims`: the reply is `Processed` of the state before the call; the URLs
        are requested up to the first failure, and the chain and the log are used only
        when answers come back. */
    method ProcessClaims(token: string, documents: Documents, questions: seq<string>) returns (r: ApiReply)
      modifies web, chain, claims
      ensures r == Processed(EnvAt(|old(web.requested)|, |old(chain.asked)|, |old(claims.attempts)|),
                             token, documents, questions)
      ensures web.requested == old(web.requested)
              + (if VerifyApiKey(apiKey, token).Authorized?
                 then DocumentUrls(documents)[..Tried(Oracles(), DocumentUrls(documents), |old(web.requested)|)]
                 else [])
      ensures chain.asked == old(chain.asked) + (if r.Answers? then questions else [])
      ensures claims.attempts == old(claims.attempts)
              + (if r.Answers? then LoggedFor(chain.reply, questions, |old(chain.asked)|) else [])
    {
      var auth := VerifyApiKey(apiKey, token);
      if auth.Unauthorized? {
        return Rejected(auth.status, auth.detail);
      }
      var urls := DocumentUrls(documents);
      var loaded := DownloadAll(urls);
      if loaded.Refused? {
        return Rejected(400, loaded.detail);
      }
      if loaded.Crashed? {
        return ServerError;
      }
      if loaded.pages == [] {
        return Rejected(400, NoDocuments);
      }
      if !buildsChain(loaded.pages) {
        return Rejected(500, ChainFailure);
      }
      var answers := AnswerAll(questions);
      r := Answers(answers);
    }

    /** The download loop: stops at the first document that does not load. */
    method DownloadAll(urls: seq<string>) returns (r: Ingest)
      modifies web
      ensures r == Ingested(Oracles(), urls, |old(web.requested)|)
      ensures web.requested == old(web.requested) + urls[..Tried(Oracles(), urls, |old(web.requested)|)]
    {
      ghost var ld := Oracles();
      var n0 := |web.requested|;
      var pages: seq<Page> := [];
      var i := 0;
      IngestFrom(ld, urls, n0);
      while i < |urls|
        invariant 0 <= i <= |urls|
        invariant web.requested == old(web.requested) + urls[..i]
        invariant Ingested(ld, urls, n0) == Prepend(pages, Ingested(ld, urls[i..], n0 + i))
        invariant Tried(ld, urls, n0) == i + Tried(ld, urls[i..], n0 + i)
      {
        assert |web.requested| == n0 + i;
        var f := web.Get(urls[i]);
        var step := DocumentOutcome(httpError, readPdf, urls[i], f);
        assert step == FetchDocument(ld, urls[i], n0 + i);
        assert urls[..i + 1] == urls[..i] + [urls[i]];
        IngestStep(ld, urls, i, n0, pages);
        if !step.Loaded? {
          return step;
        }
        pages := pages + step.pages;
        i := i + 1;
      }
      IngestDone(ld, urls, pages, n0);
      r := Loaded(pages);
    }

    /** The question loop: every outcome, and every failure of logging, becomes an entry. */
    method AnswerAll(questions: seq<string>) returns (answers: seq<string>)
      modifies chain, claims
      ensures answers == AnswersFor(chain.reply, claims.fails, questions, |old(chain.asked)|, |old(claims.attempts)|)
      ensures chain.asked == old(chain.asked) + questions
      ensures claims.attempts == old(claims.attempts) + LoggedFor(chain.reply, questions, |old(chain.asked)|)
    {
      ghost var reply, fails := chain.reply, claims.fails;
      var n0 := |chain.asked|;
      var m0 := |claims.attempts|;
      answers := [];
      var i := 0;
      AnswersFrom(reply, fails, questions, n0, m0, claims.attempts);
      while i < |questions|
        invariant 0 <= i <= |questions|
        invariant chain.asked == old(chain.asked) + questions[..i]
        invariant AnswersFor(reply, fails, questions, n0, m0)
                  == answers + AnswersFor(reply, fails, questions[i..], n0 + i, |claims.attempts|)
        invariant old(claims.attempts) + LoggedFor(reply, questions, n0)
                  == claims.attempts + LoggedFor(reply, questions[i..], n0 + i)
      {
        ghost var before := claims.attempts;
        assert |chain.asked| == n0 + i;
        var entries := AnswerOne(questions[i]);
        assert questions[..i + 1] == questions[..i] + [questions[i]];
        AnswerStep(reply, fails, questions, i, n0 + i, answers, entries, before, claims.attempts);
        answers := answers + entries;
        i := i + 1;
      }
      AnswersDone(reply, fails, questions, n0 + i, |claims.attempts|, answers, claims.attempts);
    }

    /** One turn of the question loop: the chain is asked once; an analysis is logged,
        and a raise from the log adds the exception text after the justification. */
    method AnswerOne(q: string) returns (entries: seq<string>)
      modifies chain, claims
      ensures var o := chain.reply(q, |old(chain.asked)|);
              entries == Entries(o, if Logs(o) then claims.fails(|old(claims.attempts)|) else None)
              && claims.attempts == old(claims.attempts)
                                    + (if Logs(o) then [(q, o.answer.justification)] else [])
      ensures chain.asked == old(chain.asked) + [q]
    {
      var o := chain.Invoke(q);
      match o {
        case Raised(e) =>
          entries := [ExceptionEntry(e)];
        case Answered(NotAnalysis) =>
          entries := [NoAnalysis];
        case Answered(Analysis(j)) =>
          entries := [j];
          var error := claims.LogClaim(q, j);
          if error.Some? {
            entries := entries + [ExceptionEntry(error.value)];
          }
      }
    }
  }
}
