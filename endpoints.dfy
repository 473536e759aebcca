/**
 * The deterministic responses of the HTTP and WebSocket handlers in
 * backend/main.py: the echo reply, the workflow identifier and the submit
 * response built from a research query, and the mock workflow status.
 */
module Endpoints {
  import opened Wrappers
  import opened Decimal
  import AgentRegistry

  // ---------------------------------------------------------------- echo

  const EchoPrefix: string := "Received: "

  /** The reply the WebSocket handler sends for one inbound text frame. */
  function Echo(data: string): (r: string)
    ensures |r| == |EchoPrefix| + |data|
    ensures r[..|EchoPrefix|] == EchoPrefix
    ensures r[|EchoPrefix|..] == data
  {
    EchoPrefix + data
  }

  /** The inbound text an echo reply answers, if `r` is an echo reply at all. */
  function EchoedText(r: string): (d: Option<string>)
    ensures d.Some? <==> |EchoPrefix| <= |r| && r[..|EchoPrefix|] == EchoPrefix
  {
    if |EchoPrefix| <= |r| && r[..|EchoPrefix|] == EchoPrefix then Some(r[|EchoPrefix|..]) else None
  }

  /** Every reply gives back exactly the text it answers, and nothing else is a reply. */
  lemma EchoRoundTrip(data: string, r: string)
    ensures EchoedText(Echo(data)) == Some(data)
    ensures EchoedText(r) == Some(data) <==> r == Echo(data)
  {
  }

  /** The replies to a run of inbound frames, one per frame, in order. */
  function Echoes(inbound: seq<string>): (out: seq<string>)
    ensures |out| == |inbound|
    ensures forall i :: 0 <= i < |inbound| ==> out[i] == Echo(inbound[i])
  {
    if inbound == [] then [] else Echoes(inbound[..|inbound| - 1]) + [Echo(inbound[|inbound| - 1])]
  }

  // ------------------------------------------------------- workflow ids

  const WorkflowPrefix: string := "workflow_"

  /** How many distinct hash buckets a user's workflow ids can fall into. */
  const HashBuckets: nat := 10000

  /**
   * Python's `h % 10000`. With a positive modulus Python's floored remainder
   * and Dafny's Euclidean one agree: the unique b in [0, 9999] with
   * h - b a multiple of 10000, also for negative h.
   */
  function Bucket(h: int): (b: nat)
    ensures b < HashBuckets
    ensures (h - b) % HashBuckets == 0
  {
    h % HashBuckets
  }

  /**
   * The identifier `submit_research_query` gives a new workflow; `h` stands
   * for Python's `hash(query)`, which this model leaves unconstrained.
   */
  function WorkflowId(userId: string, h: int): (w: string)
    ensures |WorkflowPrefix| + |userId| + 2 <= |w| <= |WorkflowPrefix| + |userId| + 5
    ensures w[..|WorkflowPrefix| + |userId| + 1] == WorkflowPrefix + userId + "_"
    ensures AllDigits(w[|WorkflowPrefix| + |userId| + 1..])
    ensures w == WorkflowPrefix + userId + "_" + Digits(Bucket(h))
  {
    DigitsLength(Bucket(h), 4);
    assert Pow10(4) == HashBuckets;
    var w := WorkflowPrefix + userId + "_" + Digits(Bucket(h));
    assert w[|WorkflowPrefix| + |userId| + 1..] == Digits(Bucket(h));
    w
  }

  /** The two parts a workflow id is built from. */
  datatype WorkflowKey = WorkflowKey(userId: string, bucket: nat)

  /** The position of the last occurrence of `c` in `s`. */
  function LastIndexOf(s: string, c: char): (r: Option<nat>)
    ensures r.Some? ==> r.value < |s| && s[r.value] == c
    ensures r.Some? ==> forall j :: r.value < j < |s| ==> s[j] != c
    ensures r.None? ==> forall j :: 0 <= j < |s| ==> s[j] != c
  {
    if |s| == 0 then None
    else if s[|s| - 1] == c then Some(|s| - 1)
    else LastIndexOf(s[..|s| - 1], c)
  }

  /**
   * Reads a workflow id back: the user id is everything between the prefix
   * and the last underscore, the bucket is the decimal number after it.
   */
  function ParseWorkflowId(w: string): Option<WorkflowKey>
  {
    if |w| < |WorkflowPrefix| || w[..|WorkflowPrefix|] != WorkflowPrefix then None
    else
      var rest := w[|WorkflowPrefix|..];
      match LastIndexOf(rest, '_')
      case None => None
      case Some(k) =>
        var digits := rest[k + 1..];
        if |digits| == 0 || !AllDigits(digits) then None
        else Some(WorkflowKey(rest[..k], DigitsValue(digits)))
  }

  /** A workflow id reads back as the user id and hash bucket it was built from. */
  lemma WorkflowIdRoundTrip(userId: string, h: int)
    ensures ParseWorkflowId(WorkflowId(userId, h)) == Some(WorkflowKey(userId, Bucket(h)))
  {
    var w, d := WorkflowId(userId, h), Digits(Bucket(h));
    var rest := w[|WorkflowPrefix|..];
    assert rest == userId + "_" + d;
    assert rest[|userId|] == '_';
    var r := LastIndexOf(rest, '_');
    assert forall j :: |userId| < j < |rest| ==> rest[j] == d[j - |userId| - 1];
    assert r == Some(|userId|);
    assert rest[..|userId|] == userId;
    assert rest[|userId| + 1..] == d;
    DigitsRoundTrip(Bucket(h));
  }

  /**
   * Two submissions get the same workflow id exactly when they come from the
   * same user and their query hashes fall into the same bucket.
   */
  lemma WorkflowIdCollision(u1: string, h1: int, u2: string, h2: int)
    ensures WorkflowId(u1, h1) == WorkflowId(u2, h2) <==> u1 == u2 && Bucket(h1) == Bucket(h2)
  {
    WorkflowIdRoundTrip(u1, h1);
    WorkflowIdRoundTrip(u2, h2);
  }

  // ---------------------------------------------------- submit response

  /** The fields of a research query the submit handler reads. */
  datatype ResearchQuery = ResearchQuery(query: string, userId: string)

  datatype WorkflowResponse = WorkflowResponse(workflowId: string, status: string, message: string)

  const SubmitPreamble: string := "Research workflow started for query: "
  const PreviewLength: nat := 50

  /** Python's `s[:n]`: at most the first `n` characters of `s`. */
  function Preview(s: string, n: nat): (p: string)
    ensures |p| == Min(n, |s|)
    ensures p <= s
  {
    if |s| <= n then s else s[..n]
  }

  /** The response `submit_research_query` returns; `h` stands for `hash(query.query)`. */
  function SubmitResearchQuery(q: ResearchQuery, h: int): (r: WorkflowResponse)
    ensures r.status == "initiated"
    ensures r.workflowId == WorkflowId(q.userId, h)
    ensures |r.message| == |SubmitPreamble| + Min(PreviewLength, |q.query|) + 3
    ensures r.message[..|SubmitPreamble|] == SubmitPreamble
    ensures r.message[|r.message| - 3..] == "..."
    ensures r.message[|SubmitPreamble|..|r.message| - 3] <= q.query
  {
    var m := SubmitPreamble + Preview(q.query, PreviewLength) + "...";
    assert m[|SubmitPreamble|..|m| - 3] == Preview(q.query, PreviewLength);
    WorkflowResponse(WorkflowId(q.userId, h), "initiated", m)
  }

  /** The part of a submit message that quotes the query. */
  function QuotedQuery(message: string): string
  {
    if |message| < |SubmitPreamble| + 3 then "" else message[|SubmitPreamble|..|message| - 3]
  }

  /**
   * The submit message quotes the first fifty characters of the query, the
   * whole query when it is no longer than that, and nothing else of it.
   */
  lemma SubmitMessageQuotesPreview(q: ResearchQuery, h: int)
    ensures QuotedQuery(SubmitResearchQuery(q, h).message) == Preview(q.query, PreviewLength)
    ensures |q.query| <= PreviewLength ==> QuotedQuery(SubmitResearchQuery(q, h).message) == q.query
  {
  }

  /** Two queries get the same submit message exactly when their previews agree. */
  lemma SubmitMessageDependsOnPreview(q1: ResearchQuery, q2: ResearchQuery, h1: int, h2: int)
    ensures SubmitResearchQuery(q1, h1).message == SubmitResearchQuery(q2, h2).message
        <==> Preview(q1.query, PreviewLength) == Preview(q2.query, PreviewLength)
  {
  }

  // ---------------------------------------------------- workflow status

  /** The fixed message of the mock status report. */
  const StatusMessage: string := "Research agent is discovering data sources..."

  /** The mock status report; its progress percentage is not modelled. */
  datatype WorkflowStatusReport = WorkflowStatusReport(
    workflowId: string, status: string, currentAgent: string, message: string)

  /** `get_workflow_status`: echoes the id, reports a fixed running state. */
  function GetWorkflowStatus(workflowId: string): (r: WorkflowStatusReport)
    ensures r.workflowId == workflowId
    ensures r.status == "running"
    ensures r.currentAgent == "research" && r.currentAgent in AgentRegistry.AgentTypes
    ensures r.message == StatusMessage
  {
    WorkflowStatusReport(workflowId, "running", "research", StatusMessage)
  }

  /** The report does not depend on the workflow it is asked about, apart from echoing its id. */
  lemma WorkflowStatusIgnoresWorkflow(w1: string, w2: string)
    ensures GetWorkflowStatus(w1).(workflowId := w2) == GetWorkflowStatus(w2)
  {
  }
}
