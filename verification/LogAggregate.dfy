/**
 Search over many servers: the servers are asked in batches, rows already seen are dropped and
 the search stops at the wanted total. The plain meaning is one expression over all rows.
 */
module LogAggregate {
  import opened Collections
  import opened Text
  import opened FirstOccurrence
  import opened LogSearch

  datatype Answer = Answer(serverId: string, outcome: Outcome)

  datatype Row = Row(serverId: string, hit: Hit)

  datatype Merged = Failed | Rows(rows: seq<Row>)

  const MAX_SERVER_IDS := 200
  const CONCURRENCY := 4

  // The plain meaning

  function RowKey(r: Row): string {
    r.serverId + "|" + r.hit.file + "|" + Digits(r.hit.line) + "|" + r.hit.content
  }

  function Tag(id: string, hits: seq<Hit>): (r: seq<Row>)
    ensures |r| == |hits|
  {
    seq(|hits|, i requires 0 <= i < |hits| => Row(id, hits[i]))
  }

  function RowsOf(a: Answer): seq<Row> {
    if a.outcome.Rejected? then [] else Tag(a.serverId, a.outcome.hits)
  }

  function RowLists(answers: seq<Answer>): (r: seq<seq<Row>>)
    ensures |r| == |answers|
  {
    seq(|answers|, i requires 0 <= i < |answers| => RowsOf(answers[i]))
  }

  /** The rows of the first `k` servers, in server order, each repeated row once. */
  function DistinctRows(answers: seq<Answer>, k: nat): seq<Row>
    requires k <= |answers|
  {
    Dedup(Flatten(RowLists(answers)[..k]), RowKey)
  }

  function Project(r: Row, fields: seq<Field>): Row {
    if fields == [] then r
    else
      var file := if File in fields then r.hit.file else "";
      var content := if Content in fields then r.hit.content else "";
      Row(r.serverId, Hit(file, r.hit.line, content))
  }

  function ProjectAll(rows: seq<Row>, fields: seq<Field>): (r: seq<Row>)
    ensures |r| == |rows|
  {
    seq(|rows|, i requires 0 <= i < |rows| => Project(rows[i], fields))
  }

  function FirstRows(answers: seq<Answer>, maxTotal: int, fields: seq<Field>): seq<Row> {
    ProjectAll(Take(DistinctRows(answers, |answers|), maxTotal), fields)
  }

  function BatchStart(j: nat, size: nat): (b: nat)
    requires size >= 1
    ensures b <= j < b + size
  {
    j / size * size
  }

  /** Server `j` rejects and is asked, because too few rows are merged before its batch. */
  predicate RejectsAt(answers: seq<Answer>, size: nat, maxTotal: int, j: nat)
    requires size >= 1 && j < |answers|
  {
    answers[j].outcome.Rejected? && |DistinctRows(answers, BatchStart(j, size))| < maxTotal
  }

  predicate AsksRejecting(answers: seq<Answer>, size: nat, maxTotal: int)
    requires size >= 1
  {
    exists j :: 0 <= j < |answers| && RejectsAt(answers, size, maxTotal, j)
  }

  function Aggregate(answers: seq<Answer>, size: nat, maxTotal: int, fields: seq<Field>): Merged
    requires size >= 1
  {
    if AsksRejecting(answers, size, maxTotal) then Failed else Rows(FirstRows(answers, maxTotal, fields))
  }

  // Which servers, and how much of each

  function Itself(s: string): string {
    s
  }

  function TrimmedNonEmpty(ids: seq<string>): (r: seq<string>)
    ensures forall id :: id in r ==> id != ""
  {
    if ids == [] then []
    else
      var id := Trim(ids[|ids| - 1]);
      TrimmedNonEmpty(ids[..|ids| - 1]) + if id == "" then [] else [id]
  }

  function ServersToAsk(requested: seq<string>, configured: seq<string>): (r: seq<string>)
    ensures |r| <= MAX_SERVER_IDS
  {
    var ids := Take(Dedup(TrimmedNonEmpty(requested), Itself), MAX_SERVER_IDS);
    if |ids| > 0 then ids else Take(configured, MAX_SERVER_IDS)
  }

  function PerServer(input: Input): (n: int)
    ensures 1 <= n <= 500
  {
    Min(500, Max(1, input.maxPerServer.GetOr(200)))
  }

  function Total(input: Input): (n: nat)
    ensures 1 <= n <= 2000
  {
    Min(2000, Max(1, input.maxTotal.GetOr(500)))
  }

  function AnswerOf(id: string, listing: string -> Listing, input: Input): Answer {
    Answer(id, ServerOutcome(listing(id), input, PerServer(input)))
  }

  function Answers(ids: seq<string>, listing: string -> Listing, input: Input): (r: seq<Answer>)
    ensures |r| == |ids|
  {
    seq(|ids|, i requires 0 <= i < |ids| => AnswerOf(ids[i], listing, input))
  }

  // The merge

  /** What the merge has after the rows `done`, while the total is not reached. */
  ghost predicate HasMerged(done: seq<Row>, merged: seq<Row>, seen: set<string>, fields: seq<Field>) {
    merged == ProjectAll(Dedup(done, RowKey), fields) && seen == KeysOf(done, RowKey)
  }

  /** What it has when it may have stopped on the way through `all`. */
  ghost predicate MergedOrFull(all: seq<Row>, merged: seq<Row>, seen: set<string>, maxTotal: nat, fields: seq<Field>) {
    if |merged| < maxTotal then HasMerged(all, merged, seen, fields)
    else merged == ProjectAll(Take(Dedup(all, RowKey), maxTotal), fields)
  }

  lemma FullStays(done: seq<Row>, all: seq<Row>, merged: seq<Row>, seen: set<string>, maxTotal: nat, fields: seq<Field>)
    requires MergedOrFull(done, merged, seen, maxTotal, fields) && |merged| >= maxTotal
    requires done <= all
    ensures MergedOrFull(all, merged, seen, maxTotal, fields)
    ensures |Dedup(done, RowKey)| >= maxTotal
  {
    DedupOfPrefix(done, all, RowKey);
  }

  method MergeRow(ghost done: seq<Row>, row: Row, merged: seq<Row>, seen: set<string>, maxTotal: nat, fields: seq<Field>)
    returns (merged': seq<Row>, seen': set<string>)
    requires HasMerged(done, merged, seen, fields) && |merged| < maxTotal
    ensures MergedOrFull(done + [row], merged', seen', maxTotal, fields)
  {
    merged', seen' := merged, seen;
    DedupSnoc(done, row, RowKey);
    if RowKey(row) !in seen {
      seen' := seen + {RowKey(row)};
      merged' := merged + [Project(row, fields)];
    }
  }

  method MergeServer(ghost done: seq<Row>, a: Answer, merged: seq<Row>, seen: set<string>, maxTotal: nat,
                     fields: seq<Field>)
    returns (merged': seq<Row>, seen': set<string>)
    requires a.outcome.Hits? && HasMerged(done, merged, seen, fields) && |merged| < maxTotal
    ensures MergedOrFull(done + RowsOf(a), merged', seen', maxTotal, fields)
  {
    ghost var rows := RowsOf(a);
    merged', seen' := merged, seen;
    var i := 0;
    assert done + rows[..0] == done;
    while i < |a.outcome.hits| && |merged'| < maxTotal
      invariant 0 <= i <= |a.outcome.hits| == |rows|
      invariant MergedOrFull(done + rows[..i], merged', seen', maxTotal, fields)
    {
      assert done + rows[..i + 1] == done + rows[..i] + [rows[i]];
      merged', seen' :=
        MergeRow(done + rows[..i], Row(a.serverId, a.outcome.hits[i]), merged', seen', maxTotal, fields);
      i := i + 1;
    }
    if |merged'| >= maxTotal {
      assert done + rows[..i] <= done + rows;
      FullStays(done + rows[..i], done + rows, merged', seen', maxTotal, fields);
    } else {
      assert rows[..i] == rows;
    }
  }

  /** What the merge has after the first `k` servers. */
  ghost predicate MergedUpto(lists: seq<seq<Row>>, k: nat, merged: seq<Row>, seen: set<string>, maxTotal: nat,
                             fields: seq<Field>)
    requires k <= |lists|
  {
    MergedOrFull(Flatten(lists[..k]), merged, seen, maxTotal, fields)
  }

  /** Merges the answers of one batch, which are the answers from `start` on. */
  method MergeBatch(ghost all: seq<Answer>, ghost start: nat, ghost end: nat, batch: seq<Answer>,
                    merged: seq<Row>, seen: set<string>, maxTotal: nat, fields: seq<Field>)
    returns (merged': seq<Row>, seen': set<string>)
    requires start <= end <= |all| && batch == all[start..end]
    requires forall j :: 0 <= j < |batch| ==> batch[j].outcome.Hits?
    requires MergedUpto(RowLists(all), start, merged, seen, maxTotal, fields) && |merged| < maxTotal
    ensures MergedUpto(RowLists(all), end, merged', seen', maxTotal, fields)
  {
    merged', seen' := merged, seen;
    var i := 0;
    ghost var k, lists := start, RowLists(all);
    while i < |batch| && |merged'| < maxTotal
      invariant 0 <= i <= |batch| && k == start + i
      invariant MergedUpto(lists, k, merged', seen', maxTotal, fields)
    {
      assert batch[i] == all[k];
      merged', seen' := MergeNext(lists, k, batch[i], merged', seen', maxTotal, fields);
      i, k := i + 1, k + 1;
    }
    LaterServersAddNothing(lists, k, end, merged', seen', maxTotal, fields);
  }

  method MergeNext(ghost lists: seq<seq<Row>>, ghost k: nat, a: Answer, merged: seq<Row>, seen: set<string>,
                   maxTotal: nat, fields: seq<Field>)
    returns (merged': seq<Row>, seen': set<string>)
    requires k < |lists| && a.outcome.Hits? && RowsOf(a) == lists[k]
    requires MergedUpto(lists, k, merged, seen, maxTotal, fields) && |merged| < maxTotal
    ensures MergedUpto(lists, k + 1, merged', seen', maxTotal, fields)
  {
    FlattenStep(lists, k);
    merged', seen' := MergeServer(Flatten(lists[..k]), a, merged, seen, maxTotal, fields);
  }

  lemma LaterServersAddNothing(lists: seq<seq<Row>>, i: nat, k: nat, merged: seq<Row>, seen: set<string>,
                               maxTotal: nat, fields: seq<Field>)
    requires i <= k <= |lists| && (i == k || |merged| >= maxTotal)
    requires MergedUpto(lists, i, merged, seen, maxTotal, fields)
    ensures MergedUpto(lists, k, merged, seen, maxTotal, fields)
  {
    if i < k {
      FlattenPrefix(lists, i, k);
      FullStays(Flatten(lists[..i]), Flatten(lists[..k]), merged, seen, maxTotal, fields);
    }
  }

  // The batches

  /** The searches of one batch; `ok` is false when one of them rejects, and with it the whole batch. */
  method SearchBatch(ids: seq<string>, listing: string -> Listing, input: Input, maxPerServer: int)
    returns (results: seq<Answer>, ok: bool)
    requires maxPerServer == PerServer(input)
    ensures results == Answers(ids, listing, input)
    ensures ok <==> forall j :: 0 <= j < |results| ==> results[j].outcome.Hits?
  {
    results, ok := [], true;
    for i := 0 to |ids|
      invariant |results| == i && forall j :: 0 <= j < i ==> results[j] == AnswerOf(ids[j], listing, input)
      invariant ok <==> forall j :: 0 <= j < i ==> results[j].outcome.Hits?
    {
      var outcome := SearchSingleServer(listing(ids[i]), input, maxPerServer);
      ok := ok && outcome.Hits?;
      results := results + [Answer(ids[i], outcome)];
    }
  }

  /** After the batches before `index`: nothing rejected, and their rows are merged. */
  ghost predicate Progress(all: seq<Answer>, index: nat, merged: seq<Row>, seen: set<string>, maxTotal: nat,
                           fields: seq<Field>)
    requires index <= |all|
  {
    && (forall j :: 0 <= j < index ==> all[j].outcome.Hits?)
    && MergedUpto(RowLists(all), index, merged, seen, maxTotal, fields)
  }

  method AggregateSearch(input: Input, configured: seq<string>, listing: string -> Listing) returns (r: Merged)
    ensures Trim(input.query.text) == "" ==> r == Rows([])
    ensures Trim(input.query.text) != "" ==>
              var answers := Answers(ServersToAsk(input.serverIds, configured), listing, input);
              r == Aggregate(answers, 4, Total(input), input.query.fields)
  {
    if input.query.text == "" || Trim(input.query.text) == "" {
      return Rows([]);
    }
    r := AskInBatches(ServersToAsk(input.serverIds, configured), listing, input);
  }

  method AskInBatches(serverIds: seq<string>, listing: string -> Listing, input: Input) returns (r: Merged)
    ensures r == Aggregate(Answers(serverIds, listing, input), CONCURRENCY, Total(input), input.query.fields)
  {
    var maxTotal, fields := Total(input), input.query.fields;
    ghost var all := Answers(serverIds, listing, input);
    var merged: seq<Row>, seen: set<string>, index := [], {}, 0;
    ghost var batches := 0;
    while index < |serverIds| && |merged| < maxTotal
      invariant 0 <= batches && index == batches * CONCURRENCY
      invariant Progress(all, Min(index, |all|), merged, seen, maxTotal, fields)
      decreases |serverIds| - index
    {
      var ok: bool;
      merged, seen, ok := AskBatch(all, batches, serverIds, index, listing, input, merged, seen);
      if !ok {
        return Failed;
      }
      index, batches := index + CONCURRENCY, batches + 1;
    }
    StoppingIsRight(all, index, batches, merged, seen, maxTotal, fields);
    return Rows(merged);
  }

  /** One turn of the loop: searches the servers from `index` on and merges what they answer. */
  method AskBatch(ghost all: seq<Answer>, ghost batches: nat, serverIds: seq<string>, index: nat,
                  listing: string -> Listing, input: Input, merged: seq<Row>, seen: set<string>)
    returns (merged': seq<Row>, seen': set<string>, ok: bool)
    requires all == Answers(serverIds, listing, input)
    requires index == batches * CONCURRENCY && index < |serverIds| && |merged| < Total(input)
    requires Progress(all, index, merged, seen, Total(input), input.query.fields)
    ensures ok ==> Progress(all, Min(index + CONCURRENCY, |all|), merged', seen', Total(input), input.query.fields)
    ensures !ok ==> AsksRejecting(all, CONCURRENCY, Total(input))
  {
    var end := Min(index + CONCURRENCY, |serverIds|);
    var batch;
    batch, ok := SearchBatch(serverIds[index..end], listing, input, PerServer(input));
    AnswersOfSlice(serverIds, index, end, listing, input);
    merged', seen' := merged, seen;
    if ok {
      merged', seen' := MergeBatch(all, index, end, batch, merged, seen, Total(input), input.query.fields);
      AllHit(all, index, end);
    } else {
      ghost var j :| 0 <= j < |batch| && !batch[j].outcome.Hits?;
      RejectingBatch(all, index + j, batches, merged, seen, Total(input), input.query.fields);
    }
  }

  lemma AnswersOfSlice(ids: seq<string>, i: nat, k: nat, listing: string -> Listing, input: Input)
    requires i <= k <= |ids|
    ensures Answers(ids[i..k], listing, input) == Answers(ids, listing, input)[i..k]
  {
  }

  lemma AllHit(all: seq<Answer>, index: nat, end: nat)
    requires index <= end <= |all|
    requires forall j :: 0 <= j < index ==> all[j].outcome.Hits?
    requires forall j :: 0 <= j < end - index ==> all[index..end][j].outcome.Hits?
    ensures forall j :: 0 <= j < end ==> all[j].outcome.Hits?
  {
    forall j | index <= j < end
      ensures all[j].outcome.Hits?
    {
      assert all[index..end][j - index] == all[j];
    }
  }

  lemma BatchStartOf(j: nat, batches: nat, size: nat)
    requires size >= 1 && batches * size <= j
    ensures batches * size <= BatchStart(j, size)
    ensures j < batches * size + size ==> BatchStart(j, size) == batches * size
  {
    var q := j / size;
    assert j == q * size + j % size;
    if q < batches {
      MultiplesGrow(q + 1, batches, size);
    } else {
      MultiplesGrow(batches, q, size);
      if q > batches {
        MultiplesGrow(batches + 1, q, size);
      }
    }
  }

  lemma MultiplesGrow(a: nat, b: nat, size: nat)
    requires a <= b
    ensures a * size <= b * size
  {
  }

  lemma RejectingBatch(all: seq<Answer>, j: nat, batches: nat, merged: seq<Row>, seen: set<string>,
                       maxTotal: nat, fields: seq<Field>)
    requires batches * CONCURRENCY <= j < batches * CONCURRENCY + CONCURRENCY && j < |all|
    requires Progress(all, batches * CONCURRENCY, merged, seen, maxTotal, fields) && |merged| < maxTotal
    requires all[j].outcome.Rejected?
    ensures AsksRejecting(all, CONCURRENCY, maxTotal)
  {
    BatchStartOf(j, batches, CONCURRENCY);
    assert RejectsAt(all, CONCURRENCY, maxTotal, j);
  }

  lemma StoppingIsRight(all: seq<Answer>, index: nat, batches: nat, merged: seq<Row>, seen: set<string>,
                        maxTotal: nat, fields: seq<Field>)
    requires index == batches * CONCURRENCY && (index >= |all| || |merged| >= maxTotal)
    requires Progress(all, Min(index, |all|), merged, seen, maxTotal, fields)
    ensures !AsksRejecting(all, CONCURRENCY, maxTotal)
    ensures merged == FirstRows(all, maxTotal, fields)
  {
    var lists, k := RowLists(all), Min(index, |all|);
    FlattenPrefix(lists, k, |all|);
    if |merged| >= maxTotal {
      FullStays(Flatten(lists[..k]), Flatten(lists[..|all|]), merged, seen, maxTotal, fields);
    } else {
      assert Take(DistinctRows(all, |all|), maxTotal) == DistinctRows(all, |all|);
    }
    forall j: nat | j < |all|
      ensures !RejectsAt(all, CONCURRENCY, maxTotal, j)
    {
      if index <= j {
        BatchStartOf(j, batches, CONCURRENCY);
        MoreServersMoreRows(all, index, BatchStart(j, CONCURRENCY));
      }
    }
  }

  lemma MoreServersMoreRows(all: seq<Answer>, i: nat, k: nat)
    requires i <= k <= |all|
    ensures |DistinctRows(all, i)| <= |DistinctRows(all, k)|
  {
    FlattenPrefix(RowLists(all), i, k);
    DedupOfPrefix(Flatten(RowLists(all)[..i]), Flatten(RowLists(all)[..k]), RowKey);
  }
}
