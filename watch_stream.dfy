/** The post-processing of a watch stream: only the frames that decoded are
    kept, in the order they arrived; a frame that failed to decode is dropped
    and the stream goes on. The stream is a finite sequence here. */
module WatchStream {
  import opened Wrappers

  /** The successfully decoded items of `items`, in arrival order
      (`filter_map(|e| e.ok())`). */
  function OkEvents<T, E>(items: seq<Result<T, E>>): (events: seq<T>)
    ensures |events| <= |items|
  {
    if items == [] then []
    else if items[0].Ok? then [items[0].value] + OkEvents(items[1..])
    else OkEvents(items[1..])
  }

  /** Filtering a stream piece by piece gives the same events as filtering it
      whole: each event is produced as soon as its own frame arrives. */
  lemma {:induction false} OkEventsAppend<T, E>(xs: seq<Result<T, E>>, ys: seq<Result<T, E>>)
    ensures OkEvents(xs + ys) == OkEvents(xs) + OkEvents(ys)
    decreases |xs|
  {
    if xs == [] {
      assert xs + ys == ys;
    } else {
      assert (xs + ys)[1..] == xs[1..] + ys;
      OkEventsAppend(xs[1..], ys);
    }
  }

  /** `idx` lists, in increasing order, the positions of all `Ok` items of
      `items`, and the events are the values found there. */
  ghost predicate OkPositions<T, E>(items: seq<Result<T, E>>, events: seq<T>, idx: seq<nat>)
  {
    && |idx| == |events|
    && (forall j :: 0 <= j < |idx| ==> idx[j] < |items| && items[idx[j]] == Ok(events[j]))
    && (forall j, k :: 0 <= j < k < |idx| ==> idx[j] < idx[k])
    && (forall i :: 0 <= i < |items| && items[i].Ok? ==> i in idx)
  }

  /** The positions of the `Ok` items of a stream, the head excepted. */
  ghost predicate TailPositions<T, E>(items: seq<Result<T, E>>, events: seq<T>, shifted: seq<nat>)
  {
    && |shifted| == |events|
    && (forall j :: 0 <= j < |shifted| ==> 1 <= shifted[j] < |items| && items[shifted[j]] == Ok(events[j]))
    && (forall j, k :: 0 <= j < k < |shifted| ==> shifted[j] < shifted[k])
    && (forall i :: 1 <= i < |items| && items[i].Ok? ==> i in shifted)
  }

  /** Positions in the tail of a stream, moved one place to the right, are
      the positions in the whole stream but for the head. */
  lemma ShiftPositions<T, E>(items: seq<Result<T, E>>, events: seq<T>, idx: seq<nat>) returns (shifted: seq<nat>)
    requires items != [] && OkPositions(items[1..], events, idx)
    ensures TailPositions(items, events, shifted)
  {
    shifted := seq(|idx|, j requires 0 <= j < |idx| => idx[j] + 1);
    forall j | 0 <= j < |shifted|
      ensures 1 <= shifted[j] < |items| && items[shifted[j]] == Ok(events[j])
    {
      assert items[shifted[j]] == items[1..][idx[j]];
    }
    forall i | 1 <= i < |items| && items[i].Ok?
      ensures i in shifted
    {
      assert items[1..][i - 1] == items[i];
      var j :| 0 <= j < |idx| && idx[j] == i - 1;
      assert shifted[j] == i;
    }
  }

  /** An `Ok` head is the first event, at position 0. */
  lemma PrependHead<T, E>(items: seq<Result<T, E>>, events: seq<T>, shifted: seq<nat>) returns (whole: seq<nat>)
    requires items != [] && items[0].Ok? && TailPositions(items, events, shifted)
    ensures OkPositions(items, [items[0].value] + events, whole)
  {
    whole := [0] + shifted;
    var all := [items[0].value] + events;
    forall j | 0 <= j < |whole|
      ensures whole[j] < |items| && items[whole[j]] == Ok(all[j])
    {
      if j > 0 {
        assert whole[j] == shifted[j - 1] && all[j] == events[j - 1];
      }
    }
    forall j, k | 0 <= j < k < |whole|
      ensures whole[j] < whole[k]
    {
      assert whole[k] == shifted[k - 1];
      if j > 0 {
        assert whole[j] == shifted[j - 1];
      }
    }
    forall i | 0 <= i < |items| && items[i].Ok?
      ensures i in whole
    {
      if i > 0 {
        var k :| 0 <= k < |shifted| && shifted[k] == i;
        assert whole[k + 1] == i;
      }
    }
  }

  /** The events are exactly the `Ok` items, taken at strictly increasing
      positions, and every `Ok` item is taken: nothing is reordered, nothing
      decoded is lost, nothing undecoded is let through. */
  lemma {:induction false} OkEventsPositions<T, E>(items: seq<Result<T, E>>) returns (idx: seq<nat>)
    ensures OkPositions(items, OkEvents(items), idx)
    decreases |items|
  {
    if items == [] {
      idx := [];
    } else {
      var rest := OkEventsPositions(items[1..]);
      var shifted := ShiftPositions(items, OkEvents(items[1..]), rest);
      if items[0].Ok? {
        idx := PrependHead(items, OkEvents(items[1..]), shifted);
      } else {
        idx := shifted;
      }
    }
  }

  /** An event is produced if and only if it arrived as a decoded item. */
  lemma OkEventsMembership<T, E>(items: seq<Result<T, E>>, event: T)
    ensures event in OkEvents(items) <==> Ok(event) in items
  {
    var idx := OkEventsPositions(items);
    if event in OkEvents(items) {
      var j :| 0 <= j < |OkEvents(items)| && OkEvents(items)[j] == event;
      assert items[idx[j]] == Ok(event);
    }
    if Ok(event) in items {
      var i :| 0 <= i < |items| && items[i] == Ok(event);
      var j :| 0 <= j < |idx| && idx[j] == i;
      assert OkEvents(items)[j] == event;
    }
  }

  /** A stream in which every frame decoded is passed on whole. */
  lemma {:induction false} AllDecoded<T, E>(items: seq<Result<T, E>>)
    requires forall i :: 0 <= i < |items| ==> items[i].Ok?
    ensures |OkEvents(items)| == |items|
    ensures forall i :: 0 <= i < |items| ==> OkEvents(items)[i] == items[i].value
    decreases |items|
  {
    if items != [] {
      AllDecoded(items[1..]);
    }
  }

  /** A stream in which no frame decoded yields no event and no error. */
  lemma {:induction false} NoneDecoded<T, E>(items: seq<Result<T, E>>)
    requires forall i :: 0 <= i < |items| ==> items[i].Err?
    ensures OkEvents(items) == []
    decreases |items|
  {
    if items != [] {
      NoneDecoded(items[1..]);
    }
  }
}
