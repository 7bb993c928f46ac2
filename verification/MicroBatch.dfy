/**
  The single-document micro-batch: jobs for the same document are merged into one request,
  and every job gets its reply exactly once.
  */
module MicroBatch {
  import opened Prelude

  datatype Document = Document(id: string, ts: int, body: int)

  datatype SingleJob = SingleJob(document: Document, ticket: Option<nat>)

  datatype UpsertError = QueueEntryGone | OtherError(message: string)

  /** Ids that were stale, and ids whose queue rows were gone under the lock. */
  datatype Outcome = Outcome(skipped: set<string>, drained: set<string>)

  /** `Ok` carries the ids that were not indexed because they were stale. */
  type Reply = Result<seq<string>, UpsertError>

  // ------------------------------------------------------------------ specification

  /** Job `i` is chosen over job `j`: later timestamp, or the same one and earlier in line. */
  predicate Beats(jobs: seq<SingleJob>, i: nat, j: nat)
    requires i < |jobs| && j < |jobs|
  {
    || jobs[j].document.ts < jobs[i].document.ts
    || (jobs[j].document.ts == jobs[i].document.ts && i <= j)
  }

  /** Job `i` wins its document among the first `n` jobs. */
  predicate Wins(jobs: seq<SingleJob>, n: nat, i: nat)
    requires n <= |jobs|
  {
    i < n && forall j :: 0 <= j < n && jobs[j].document.id == jobs[i].document.id ==> Beats(jobs, i, j)
  }

  /** The winners among the first `n` jobs, in line order. */
  function Winners(jobs: seq<SingleJob>, n: nat): seq<nat>
    requires n <= |jobs|
  {
    if n == 0 then []
    else Winners(jobs, n - 1) + if Wins(jobs, |jobs|, n - 1) then [n - 1] else []
  }

  function WinnerReply(id: string, result: Result<Outcome, UpsertError>): Reply
  {
    match result
    case Err(e) => Err(e)
    case Ok(o) => if id in o.drained then Err(QueueEntryGone) else if id in o.skipped then Ok([id]) else Ok([])
  }

  /** What job `i` is told: losers are reported as stale, winners get the request's result. */
  function Expected(jobs: seq<SingleJob>, i: nat, result: Result<Outcome, UpsertError>): Reply
    requires i < |jobs|
  {
    if Wins(jobs, |jobs|, i) then WinnerReply(jobs[i].document.id, result) else Ok([jobs[i].document.id])
  }

  // ------------------------------------------------------------------ replies

  /** Reply channels: `open[i]` until job `i` was answered; `log` is everything sent so far. */
  datatype Channels = Channels(open: seq<bool>, log: seq<(nat, Reply)>)

  /** Exactly the closed channels were used, each once. */
  predicate Consistent(ch: Channels)
  {
    && (forall p :: 0 <= p < |ch.log| ==> ch.log[p].0 < |ch.open| && !ch.open[ch.log[p].0])
    && (forall p, q :: 0 <= p < q < |ch.log| ==> ch.log[p].0 != ch.log[q].0)
    && (forall i :: 0 <= i < |ch.open| && !ch.open[i] ==> Sent(ch.log, i))
  }

  predicate Sent(log: seq<(nat, Reply)>, i: nat)
  {
    exists p :: 0 <= p < |log| && log[p].0 == i
  }

  /** Taking the sender leaves nothing for a second send. */
  function Send(ch: Channels, i: nat, msg: Reply): Channels
    requires i < |ch.open|
  {
    if ch.open[i] then Channels(ch.open[i := false], ch.log + [(i, msg)]) else ch
  }

  lemma SendKeeps(ch: Channels, i: nat, msg: Reply)
    requires Consistent(ch) && i < |ch.open|
    ensures Consistent(Send(ch, i, msg))
  {
    var ch' := Send(ch, i, msg);
    if ch.open[i] {
      assert ch'.log[|ch.log|] == (i, msg);
      forall j | 0 <= j < |ch'.open| && !ch'.open[j] ensures Sent(ch'.log, j) {
        if j != i {
          var p :| 0 <= p < |ch.log| && ch.log[p].0 == j;
          assert ch'.log[p].0 == j;
        }
      }
    }
  }

  // ------------------------------------------------------------------ choosing winners

  /** `winners` maps every id among the first `n` jobs to its winner. */
  predicate WinnersOk(jobs: seq<SingleJob>, n: nat, winners: map<string, nat>)
    requires n <= |jobs|
  {
    && (forall id :: id in winners ==> Wins(jobs, n, winners[id]) && jobs[winners[id]].document.id == id)
    && (forall i :: 0 <= i < n ==> jobs[i].document.id in winners)
  }

  lemma WinnerUnique(jobs: seq<SingleJob>, n: nat, i: nat, j: nat)
    requires n <= |jobs| && Wins(jobs, n, i) && Wins(jobs, n, j) && jobs[i].document.id == jobs[j].document.id
    ensures i == j
  {
    assert Beats(jobs, i, j) && Beats(jobs, j, i);
  }

  /** Adding job `n`: it wins its document exactly when it is strictly newer than the winner so far. */
  lemma WinnersStep(jobs: seq<SingleJob>, n: nat, winners: map<string, nat>)
    requires n < |jobs| && WinnersOk(jobs, n, winners)
    ensures var id := jobs[n].document.id;
            var taken := id in winners && jobs[n].document.ts <= jobs[winners[id]].document.ts;
            WinnersOk(jobs, n + 1, if taken then winners else winners[id := n])
  {
    var id := jobs[n].document.id;
    forall other | other in winners && other != id ensures Wins(jobs, n + 1, winners[other]) {}
    if id in winners {
      var b := winners[id];
      assert Wins(jobs, n, b);
      if jobs[n].document.ts <= jobs[b].document.ts {
        assert Wins(jobs, n + 1, b);
      } else {
        forall j | 0 <= j < n + 1 && jobs[j].document.id == id ensures Beats(jobs, n, j) {
          if j < n { assert Beats(jobs, b, j); }
        }
        assert Wins(jobs, n + 1, n);
      }
    } else {
      assert Wins(jobs, n + 1, n);
    }
  }

  /** After `n` jobs the losers, and only they, were told that they are stale. */
  predicate LosersTold(jobs: seq<SingleJob>, n: nat, winners: map<string, nat>, ch: Channels)
    requires n <= |jobs|
  {
    && |ch.open| == |jobs| && Consistent(ch)
    && (forall i :: 0 <= i < n ==>
          (!ch.open[i] <==> !(jobs[i].document.id in winners && winners[jobs[i].document.id] == i)))
    && (forall i :: n <= i < |jobs| ==> ch.open[i])
    && (forall p :: 0 <= p < |ch.log| && ch.log[p].0 < |jobs| ==> ch.log[p].1 == Ok([jobs[ch.log[p].0].document.id]))
  }

  method ChooseWinners(jobs: seq<SingleJob>) returns (winners: map<string, nat>, ch: Channels)
    ensures WinnersOk(jobs, |jobs|, winners)
    ensures LosersTold(jobs, |jobs|, winners, ch)
  {
    winners := map[];
    ch := Channels(seq(|jobs|, i => true), []);
    for n := 0 to |jobs|
      invariant WinnersOk(jobs, n, winners)
      invariant LosersTold(jobs, n, winners, ch)
    {
      WinnersStep(jobs, n, winners);
      winners, ch := ConsiderJob(jobs, n, winners, ch);
    }
  }

  /** The loser of two jobs for one document is told that it is stale. */
  lemma LoserTold(jobs: seq<SingleJob>, n: nat, winners: map<string, nat>, ch: Channels, loser: nat, winners': map<string, nat>)
    requires n < |jobs| && LosersTold(jobs, n, winners, ch) && jobs[n].document.id in winners
    requires var id := jobs[n].document.id;
             && winners[id] < n && jobs[winners[id]].document.id == id
             && ((loser == n && winners' == winners) || (loser == winners[id] && winners' == winners[id := n]))
    ensures LosersTold(jobs, n + 1, winners', Send(ch, loser, Ok([jobs[n].document.id])))
  {
    SendKeeps(ch, loser, Ok([jobs[n].document.id]));
  }

  method ConsiderJob(jobs: seq<SingleJob>, n: nat, winners: map<string, nat>, ch: Channels)
    returns (winners': map<string, nat>, ch': Channels)
    requires n < |jobs| && WinnersOk(jobs, n, winners) && LosersTold(jobs, n, winners, ch)
    ensures LosersTold(jobs, n + 1, winners', ch')
    ensures var id := jobs[n].document.id;
            var taken := id in winners && jobs[n].document.ts <= jobs[winners[id]].document.ts;
            winners' == if taken then winners else winners[id := n]
  {
    var id := jobs[n].document.id;
    if id !in winners {
      return winners[id := n], ch;
    }
    assert Wins(jobs, n, winners[id]);
    if jobs[n].document.ts > jobs[winners[id]].document.ts {
      LoserTold(jobs, n, winners, ch, winners[id], winners[id := n]);
      return winners[id := n], Send(ch, winners[id], Ok([id]));
    }
    LoserTold(jobs, n, winners, ch, n, winners);
    return winners, Send(ch, n, Ok([id]));
  }

  // ------------------------------------------------------------------ the merged request

  lemma WinsIsMapped(jobs: seq<SingleJob>, winners: map<string, nat>, i: nat)
    requires WinnersOk(jobs, |jobs|, winners) && i < |jobs|
    ensures Wins(jobs, |jobs|, i) <==> winners[jobs[i].document.id] == i
  {
    var w := winners[jobs[i].document.id];
    if Wins(jobs, |jobs|, i) { WinnerUnique(jobs, |jobs|, i, w); }
  }

  /** The documents and tickets of the winners, walked in line order. */
  method Assemble(jobs: seq<SingleJob>, winners: map<string, nat>)
    returns (merged: seq<Document>, tickets: seq<Option<nat>>)
    requires WinnersOk(jobs, |jobs|, winners)
    ensures IsMerged(jobs, merged, tickets)
  {
    merged, tickets := [], [];
    for i := 0 to |jobs|
      invariant IsMergedUpTo(jobs, i, merged, tickets)
    {
      WinsIsMapped(jobs, winners, i);
      if winners[jobs[i].document.id] == i {
        merged := merged + [jobs[i].document];
        tickets := tickets + [jobs[i].ticket];
      }
    }
  }

  predicate IsMergedUpTo(jobs: seq<SingleJob>, n: nat, merged: seq<Document>, tickets: seq<Option<nat>>)
    requires n <= |jobs|
  {
    && |merged| == |tickets| == |Winners(jobs, n)|
    && forall p :: 0 <= p < |merged| ==>
         && Winners(jobs, n)[p] < |jobs|
         && merged[p] == jobs[Winners(jobs, n)[p]].document && tickets[p] == jobs[Winners(jobs, n)[p]].ticket
  }

  predicate IsMerged(jobs: seq<SingleJob>, merged: seq<Document>, tickets: seq<Option<nat>>)
  {
    IsMergedUpTo(jobs, |jobs|, merged, tickets)
  }

  lemma {:induction false} WinnersAscend(jobs: seq<SingleJob>, n: nat)
    requires n <= |jobs|
    ensures forall p :: 0 <= p < |Winners(jobs, n)| ==> Winners(jobs, n)[p] < n && Wins(jobs, |jobs|, Winners(jobs, n)[p])
    ensures forall p, q :: 0 <= p < q < |Winners(jobs, n)| ==> Winners(jobs, n)[p] < Winners(jobs, n)[q]
    ensures forall i :: 0 <= i < n && Wins(jobs, |jobs|, i) ==> i in Winners(jobs, n)
  {
    if n > 0 {
      WinnersAscend(jobs, n - 1);
      var front, all := Winners(jobs, n - 1), Winners(jobs, n);
      forall i | 0 <= i < n && Wins(jobs, |jobs|, i) ensures i in all {
        if i < n - 1 { assert i in front; } else { assert all[|front|] == n - 1; }
      }
    }
  }

  lemma WinnerExists(jobs: seq<SingleJob>, n: nat, i: nat) returns (w: nat)
    requires i < n <= |jobs|
    ensures Wins(jobs, n, w) && jobs[w].document.id == jobs[i].document.id
    decreases n
  {
    if i == n - 1 && (forall j :: 0 <= j < n - 1 ==> jobs[j].document.id != jobs[i].document.id) {
      w := i;
    } else {
      var k: nat := if i < n - 1 then i else var j: nat :| j < n - 1 && jobs[j].document.id == jobs[i].document.id; j;
      var v := WinnerExists(jobs, n - 1, k);
      if jobs[n - 1].document.id == jobs[i].document.id && jobs[v].document.ts < jobs[n - 1].document.ts {
        w := n - 1;
        forall j | 0 <= j < n && jobs[j].document.id == jobs[w].document.id ensures Beats(jobs, w, j) {
          if j < n - 1 { assert Beats(jobs, v, j); }
        }
      } else {
        w := v;
        forall j | 0 <= j < n && jobs[j].document.id == jobs[w].document.id ensures Beats(jobs, w, j) {
          if j < n - 1 { assert Beats(jobs, v, j); }
        }
      }
    }
  }

  lemma MergedDistinct(jobs: seq<SingleJob>, merged: seq<Document>, tickets: seq<Option<nat>>, p: nat, q: nat)
    requires IsMerged(jobs, merged, tickets) && p < q < |merged|
    ensures merged[p].id != merged[q].id
  {
    var ws := Winners(jobs, |jobs|);
    WinnersAscend(jobs, |jobs|);
    assert ws[p] < ws[q];
    if merged[p].id == merged[q].id { WinnerUnique(jobs, |jobs|, ws[p], ws[q]); }
  }

  lemma MergedCoversJob(jobs: seq<SingleJob>, merged: seq<Document>, tickets: seq<Option<nat>>, i: nat)
    returns (p: nat)
    requires IsMerged(jobs, merged, tickets) && i < |jobs|
    ensures p < |merged| && merged[p].id == jobs[i].document.id && jobs[i].document.ts <= merged[p].ts
  {
    var ws := Winners(jobs, |jobs|);
    WinnersAscend(jobs, |jobs|);
    var w := WinnerExists(jobs, |jobs|, i);
    p :| 0 <= p < |ws| && ws[p] == w;
    assert Beats(jobs, w, i);
  }

  /** A merged document and its ticket are one of the jobs, the winner of its document. */
  predicate FromWinner(jobs: seq<SingleJob>, d: Document, ticket: Option<nat>)
  {
    exists i :: 0 <= i < |jobs| && jobs[i] == SingleJob(d, ticket) && Wins(jobs, |jobs|, i)
  }

  lemma MergedFromWinner(jobs: seq<SingleJob>, merged: seq<Document>, tickets: seq<Option<nat>>, p: nat)
    requires IsMerged(jobs, merged, tickets) && p < |merged|
    ensures FromWinner(jobs, merged[p], tickets[p])
  {
    var ws := Winners(jobs, |jobs|);
    WinnersAscend(jobs, |jobs|);
    assert jobs[ws[p]] == SingleJob(merged[p], tickets[p]);
  }

  /**
    The merged request holds exactly one document per id that any job names: the one with
    the greatest timestamp, the earliest in line on ties.  Tickets stay with their documents.
    */
  lemma MergedOnePerId(jobs: seq<SingleJob>, merged: seq<Document>, tickets: seq<Option<nat>>)
    requires IsMerged(jobs, merged, tickets)
    ensures |tickets| == |merged|
    ensures forall p, q :: 0 <= p < q < |merged| ==> merged[p].id != merged[q].id
    ensures forall i :: 0 <= i < |jobs| ==>
              exists p :: 0 <= p < |merged| && merged[p].id == jobs[i].document.id
                          && jobs[i].document.ts <= merged[p].ts
    ensures forall p :: 0 <= p < |merged| ==> FromWinner(jobs, merged[p], tickets[p])
  {
    forall p, q | 0 <= p < q < |merged| ensures merged[p].id != merged[q].id {
      MergedDistinct(jobs, merged, tickets, p, q);
    }
    forall i | 0 <= i < |jobs|
      ensures exists p :: 0 <= p < |merged| && merged[p].id == jobs[i].document.id && jobs[i].document.ts <= merged[p].ts
    {
      var p := MergedCoversJob(jobs, merged, tickets, i);
    }
    forall p | 0 <= p < |merged| ensures FromWinner(jobs, merged[p], tickets[p]) {
      MergedFromWinner(jobs, merged, tickets, p);
    }
  }

  // ------------------------------------------------------------------ answering

  /** Every job was answered exactly once, with the reply it should get. */
  predicate AllAnswered(jobs: seq<SingleJob>, log: seq<(nat, Reply)>, result: Result<Outcome, UpsertError>)
  {
    && (forall p :: 0 <= p < |log| ==> log[p].0 < |jobs| && log[p].1 == Expected(jobs, log[p].0, result))
    && (forall p, q :: 0 <= p < q < |log| ==> log[p].0 != log[q].0)
    && (forall i :: 0 <= i < |jobs| ==> Sent(log, i))
  }

  predicate AnsweredUpTo(jobs: seq<SingleJob>, n: nat, ch: Channels, result: Result<Outcome, UpsertError>)
    requires n <= |jobs|
  {
    && |ch.open| == |jobs| && Consistent(ch)
    && (forall i :: 0 <= i < |jobs| ==> (ch.open[i] <==> Wins(jobs, |jobs|, i) && n <= i))
    && (forall p :: 0 <= p < |ch.log| && ch.log[p].0 < |jobs| ==> ch.log[p].1 == Expected(jobs, ch.log[p].0, result))
  }

  lemma LosersAnswered(jobs: seq<SingleJob>, winners: map<string, nat>, ch: Channels, result: Result<Outcome, UpsertError>)
    requires WinnersOk(jobs, |jobs|, winners) && LosersTold(jobs, |jobs|, winners, ch)
    ensures AnsweredUpTo(jobs, 0, ch, result)
  {
    forall i | 0 <= i < |jobs| ensures ch.open[i] <==> Wins(jobs, |jobs|, i) {
      WinsIsMapped(jobs, winners, i);
    }
  }

  /** Winners learn the request's result; jobs answered before stay as they are. */
  method AnswerWinners(jobs: seq<SingleJob>, winners: map<string, nat>, before: Channels,
                       result: Result<Outcome, UpsertError>) returns (ch: Channels)
    requires WinnersOk(jobs, |jobs|, winners) && AnsweredUpTo(jobs, 0, before, result)
    ensures AnsweredUpTo(jobs, |jobs|, ch, result)
  {
    ch := before;
    for i := 0 to |jobs|
      invariant AnsweredUpTo(jobs, i, ch, result)
    {
      WinsIsMapped(jobs, winners, i);
      ch := AnswerOne(jobs, winners, i, ch, result);
    }
  }

  lemma ReplyAdvances(jobs: seq<SingleJob>, i: nat, ch: Channels, result: Result<Outcome, UpsertError>)
    requires i < |jobs| && AnsweredUpTo(jobs, i, ch, result) && ch.open[i]
    ensures AnsweredUpTo(jobs, i + 1, Send(ch, i, WinnerReply(jobs[i].document.id, result)), result)
  {
    SendKeeps(ch, i, WinnerReply(jobs[i].document.id, result));
  }

  method AnswerOne(jobs: seq<SingleJob>, winners: map<string, nat>, i: nat, ch: Channels,
                   result: Result<Outcome, UpsertError>) returns (ch': Channels)
    requires i < |jobs| && jobs[i].document.id in winners && AnsweredUpTo(jobs, i, ch, result)
    requires Wins(jobs, |jobs|, i) <==> winners[jobs[i].document.id] == i
    ensures AnsweredUpTo(jobs, i + 1, ch', result)
  {
    ch' := ch;
    if ch.open[i] && (result.Err? || winners[jobs[i].document.id] == i) {
      ReplyAdvances(jobs, i, ch, result);
      ch' := Send(ch, i, WinnerReply(jobs[i].document.id, result));
    }
  }

  /**
    One micro-batch for one collection.  `upsert` stands for the bulk request; it is made
    on the merged documents and their tickets, and its result decides the winners' replies.
    */
  method Respond(jobs: seq<SingleJob>, upsert: (seq<Document>, seq<Option<nat>>) -> Result<Outcome, UpsertError>)
    returns (merged: seq<Document>, tickets: seq<Option<nat>>, log: seq<(nat, Reply)>)
    ensures IsMerged(jobs, merged, tickets)
    ensures AllAnswered(jobs, log, upsert(merged, tickets))
  {
    var winners, ch := ChooseWinners(jobs);
    merged, tickets := Assemble(jobs, winners);
    if merged == [] {
      if jobs != [] { var p := MergedCoversJob(jobs, merged, tickets, 0); }
      return merged, tickets, ch.log;
    }
    var result := upsert(merged, tickets);
    LosersAnswered(jobs, winners, ch, result);
    ch := AnswerWinners(jobs, winners, ch, result);
    log := ch.log;
  }
}
