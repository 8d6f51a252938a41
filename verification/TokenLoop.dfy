/** The token loop itself: the stream buffer and the model runner, whose methods
    take the abstract state where Running's functions do. */
module TokenLoop {
  import opened Batching
  import opened Running
  import opened BatchScheduler

  class TokenStreamBuffer {
    var queue: seq<Event>

    constructor ()
      ensures queue == []
    {
      queue := [];
    }

    method Push(output: Event)
      modifies this
      ensures queue == old(queue) + [output]
    {
      queue := queue + [output];
    }

    method PushBatch(outputs: seq<Event>)
      modifies this
      ensures queue == old(queue) + outputs
    {
      var i := 0;
      while i < |outputs|
        invariant 0 <= i <= |outputs| && queue == old(queue) + outputs[..i]
      {
        Push(outputs[i]);
        i := i + 1;
      }
      assert outputs[..i] == outputs;
    }

    method PopAll() returns (outputs: seq<Event>)
      modifies this
      ensures queue == [] && outputs == old(queue)
    {
      outputs := [];
      while queue != []
        invariant outputs + queue == old(queue)
        decreases |queue|
      {
        outputs := outputs + [queue[0]];
        queue := queue[1..];
      }
    }
  }

  lemma FinalIdsPush(events: seq<Event>, e: Event)
    ensures FinalIds(events + [e]) == FinalIds(events) + if e.isFinal then [e.id] else []
  {
    assert (events + [e])[..|events|] == events;
  }

  lemma GenerateOne(vocab: Vocab, eos: int, g: Generated, ids: seq<nat>, n: nat, prefill: bool)
    requires Listed(g.requests, ids) && n < |ids|
    requires forall id :: id in g.requests ==> RequestOk(g.requests[id])
    ensures Listed(g.requests, ids[..n]) && Listed(g.requests, ids[..n + 1])
    ensures var h := GenerateAll(vocab, eos, g, ids[..n], prefill);
      ids[n] in h.requests && RequestOk(h.requests[ids[n]])
    ensures var h := GenerateAll(vocab, eos, g, ids[..n], prefill);
      var (r, e) := Generate(vocab, eos, ids[n], h.requests[ids[n]], prefill);
      GenerateAll(vocab, eos, g, ids[..n + 1], prefill) == Generated(h.requests[ids[n] := r], h.events + [e])
  {
    assert ids[..n + 1][..n] == ids[..n];
  }

  class ModelRunner {
    const batcher: ContinuousBatcher
    const streamBuffer: TokenStreamBuffer
    const vocab: Vocab
    const eos: int
    var cancelled: set<nat>

    ghost function View(): Runner
      reads this, batcher, streamBuffer
    {
      Runner(batcher.View(), vocab, eos, streamBuffer.queue, cancelled)
    }

    constructor (batcher: ContinuousBatcher, vocab: Vocab, eos: int)
      ensures this.batcher == batcher && fresh(streamBuffer)
      ensures View() == Runner(batcher.View(), vocab, eos, [], {})
    {
      this.batcher, this.vocab, this.eos := batcher, vocab, eos;
      streamBuffer := new TokenStreamBuffer();
      cancelled := {};
    }

    method CancelRequest(id: nat)
      requires BatcherShape(batcher.View())
      modifies this, batcher
      ensures View() == Running.CancelRequest(old(View()), id)
    {
      cancelled := cancelled + {id};
      var ok := batcher.CancelRequest(id);
    }

    /** The prefill loop and the decode loop: one token for each request. */
    method GenerateTokens(ids: seq<nat>, prefill: bool, outputs: seq<Event>, finished: seq<nat>)
      returns (newOutputs: seq<Event>, newFinished: seq<nat>)
      requires Listed(batcher.requests, ids) && finished == FinalIds(outputs)
      requires forall id :: id in batcher.requests ==> RequestOk(batcher.requests[id])
      modifies batcher
      ensures Generated(batcher.requests, newOutputs)
        == GenerateAll(vocab, eos, Generated(old(batcher.requests), outputs), ids, prefill)
      ensures newFinished == FinalIds(newOutputs) && |newOutputs| == |outputs| + |ids|
      ensures batcher.View() == old(batcher.View()).(requests := batcher.requests)
    {
      hide GenerateAll, Generate, FinalIds, RequestOk;
      ghost var g := Generated(batcher.requests, outputs);
      NothingGenerated(vocab, eos, g, prefill);
      assert ids[..0] == [];
      newOutputs, newFinished := outputs, finished;
      var i := 0;
      while i < |ids|
        invariant 0 <= i <= |ids| && newFinished == FinalIds(newOutputs) && |newOutputs| == |outputs| + i
        invariant batcher.View() == old(batcher.View()).(requests := batcher.requests)
        invariant Listed(g.requests, ids[..i])
        invariant Generated(batcher.requests, newOutputs) == GenerateAll(vocab, eos, g, ids[..i], prefill)
      {
        GenerateOne(vocab, eos, g, ids, i, prefill);
        var output := GenerateToken(ids[i], prefill);
        FinalIdsPush(newOutputs, output);
        newOutputs := newOutputs + [output];
        if output.isFinal {
          newFinished := newFinished + [output.id];
        }
        i := i + 1;
      }
      assert ids[..i] == ids;
    }

    /** One token for one request. */
    method GenerateToken(id: nat, prefill: bool) returns (output: Event)
      requires id in batcher.requests && RequestOk(batcher.requests[id])
      modifies batcher
      ensures id in batcher.requests && (batcher.requests[id], output)
        == Generate(vocab, eos, id, old(batcher.requests[id]), prefill)
      ensures batcher.View() == old(batcher.View()).(requests := old(batcher.requests)[id := batcher.requests[id]])
      ensures output.id == id
    {
      var r := batcher.requests[id];
      var token := if prefill then Next(vocab, LastOf(r.prompt)) else Next(vocab, LastOf(r.generated));
      r := r.(generated := r.generated + [token]);
      var isFinal := token == eos || |r.generated| >= Limit(r);
      output := Event(id, token, isFinal);
      if isFinal {
        r := r.(state := Finished);
      }
      batcher.requests := batcher.requests[id := r];
    }

    /** The requests of the batch that have been cancelled in the meantime go. */
    method FilterCancelled(prefill: seq<nat>, decode: seq<nat>) returns (p: seq<nat>, d: seq<nat>)
      ensures p == Drop(prefill, cancelled) && d == Drop(decode, cancelled)
      ensures Remains(prefill, cancelled, p) && Remains(decode, cancelled, d)
    {
      if cancelled == {} {
        NoneDropped(prefill);
        NoneDropped(decode);
        p, d := prefill, decode;
      } else {
        p := RemoveCancelled(prefill);
        d := RemoveCancelled(decode);
      }
      DropRemains(prefill, cancelled);
      DropRemains(decode, cancelled);
    }

    /** remove_if on one list of requests. */
    method RemoveCancelled(ids: seq<nat>) returns (r: seq<nat>)
      ensures r == Drop(ids, cancelled)
    {
      r := [];
      var i := 0;
      while i < |ids|
        invariant 0 <= i <= |ids| && r == Drop(ids[..i], cancelled)
      {
        assert ids[..i + 1][..i] == ids[..i];
        if ids[i] !in cancelled {
          r := r + [ids[i]];
        }
        i := i + 1;
      }
      assert ids[..i] == ids;
    }

    /** The step of a batch that has been decided. */
    method ExecuteBatch(prefill: seq<nat>, decode: seq<nat>) returns (active: nat)
      requires BatcherShape(batcher.View())
      requires Listed(batcher.requests, prefill) && Listed(batcher.requests, decode)
      modifies batcher, streamBuffer
      ensures View() == Execute(old(View()), prefill, decode)
      ensures active == |View().queue| - |old(View()).queue|
    {
      DropListed(batcher.requests, prefill, cancelled);
      DropListed(batcher.requests, decode, cancelled);
      var p, d := FilterCancelled(prefill, decode);
      active := |p| + |d|;
      if active == 0 {
        return;
      }
      hide Listed, GenerateAll, FinalIds, RequestOk;
      var outputs, finished := GenerateTokens(p, true, [], []);
      ListedKeys(old(batcher.requests), batcher.requests, d);
      outputs, finished := GenerateTokens(d, false, outputs, finished);
      if outputs != [] {
        streamBuffer.PushBatch(outputs);
      }
      assert streamBuffer.queue == old(streamBuffer.queue) + outputs;
      assert |outputs| == active;
      FinishEmpty(batcher.View());
      if finished != [] {
        batcher.UpdateRequestsState(finished);
      }
    }

    method Step() returns (active: nat)
      requires BatcherOk(batcher.View())
      modifies batcher, streamBuffer
      ensures View() == Running.Step(old(View()), [])
      ensures active == |View().queue| - |old(View()).queue|
    {
      ScheduleShape(batcher.View());
      BatcherOkShape(batcher.View());
      hide BatcherShape, BatcherOk, Schedule, Execute, Listed;
      var prefill, decode, tokens, preempted := batcher.ScheduleStep();
      active := ExecuteBatch(prefill, decode);
    }
  }

  /** r is what remains of s, in its order, without the ids and with all others. */
  ghost predicate Remains(s: seq<nat>, ids: set<nat>, r: seq<nat>) {
    && (forall x :: x in r <==> x in s && x !in ids)
    && exists at: seq<nat> :: |at| == |r| && Picks(s, ids, at, r)
  }

  /** at are the positions of s that are kept: increasing, and all of those not in ids. */
  ghost predicate Picks(s: seq<nat>, ids: set<nat>, at: seq<nat>, r: seq<nat>)
    requires |at| == |r|
  {
    && (forall k :: 0 <= k < |at| ==> at[k] < |s| && s[at[k]] == r[k])
    && (forall k, l :: 0 <= k < l < |at| ==> at[k] < at[l])
    && (forall i :: 0 <= i < |s| && s[i] !in ids ==> i in at)
  }

  lemma {:induction false} DropPicks(s: seq<nat>, ids: set<nat>) returns (at: seq<nat>)
    ensures |at| == |Drop(s, ids)| && Picks(s, ids, at, Drop(s, ids))
  {
    at := [];
    if s != [] {
      var last := |s| - 1;
      at := DropPicks(s[..last], ids);
      if s[last] !in ids {
        at := at + [last];
      }
    }
  }

  lemma DropRemains(s: seq<nat>, ids: set<nat>)
    ensures Remains(s, ids, Drop(s, ids))
  {
    DropMembers(s, ids);
    var at := DropPicks(s, ids);
  }

  lemma {:induction false} NoneDropped(s: seq<nat>)
    ensures Drop(s, {}) == s
  {
    if s != [] {
      NoneDropped(s[..|s| - 1]);
    }
  }

  lemma ListedKeys(requests: Store, requests': Store, s: seq<nat>)
    requires Listed(requests, s) && requests'.Keys == requests.Keys
    ensures Listed(requests', s)
  {
  }

  lemma FinishEmpty(b: Batcher)
    ensures b.known <= b.requests.Keys ==> Finish(b, []) == b
  {
  }

  lemma BatcherOkShape(b: Batcher)
    requires BatcherOk(b)
    ensures BatcherShape(b)
  {
  }

  lemma NothingGenerated(vocab: Vocab, eos: int, g: Generated, prefill: bool)
    requires forall id :: id in g.requests ==> RequestOk(g.requests[id])
    ensures Listed(g.requests, []) && GenerateAll(vocab, eos, g, [], prefill) == g
  {
  }
}
