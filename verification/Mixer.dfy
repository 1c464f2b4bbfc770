/**
 The mixing ring of the audio decoder module: wrapped cursors, the search for the least and the
 furthest of them, and the two-part adding and copying into the pcm array. Every operation is proved
 to do what module MixSpec says in unbounded stream positions.
 */
module Mixer {
  import opened MixSpec
  import opened Turns

  const NONE: int := 0xFFFF_FFFF

  /** The distance code of update_wr_ptr, update_rd_ptr and their kin: from one cursor up to another. */
  function Distance(from: int, to: int, size: int): int {
    if to >= from then to - from else size + to - from
  }

  lemma DistanceSlot(p: int, q: int, size: int)
    requires size > 0 && p <= q < p + size
    ensures Distance(Slot(p, size), Slot(q, size), size) == q - p
  {
    SlotsApart(p, q, size);
  }

  /** Every member of a list has its wrapped cursor, which stands for its true position. */
  ghost predicate Points(ds: seq<int>, ptrs: map<int, int>, pos: map<int, int>, size: int) {
    size > 0 && forall d :: d in ds ==> d in ptrs && ptrs[d] == Slot(At(pos, d), size)
  }

  /** The frames each output has missed. */
  ghost predicate Counts(outputs: seq<int>, missed: map<int, int>) {
    forall o :: o in outputs ==> o in missed && missed[o] >= 0
  }

  lemma CountsAdded(outputs: seq<int>, missed: map<int, int>, o: int)
    requires Counts(outputs, missed)
    ensures Counts(outputs + [o], missed[o := 0])
  {
  }

  lemma PointsAdded(ds: seq<int>, ptrs: map<int, int>, pos: map<int, int>, size: int, d: int, p: int)
    requires Points(ds, ptrs, pos, size)
    ensures Points(ds + [d], ptrs[d := Slot(p, size)], pos[d := p], size)
  {
    hide Slot;
  }

  lemma PointsMoved(ds: seq<int>, ptrs: map<int, int>, pos: map<int, int>, size: int, d: int, p: int)
    requires Points(ds, ptrs, pos, size)
    ensures Points(ds, ptrs[d := Slot(p, size)], pos[d := p], size)
  {
    hide Slot;
  }

  lemma PointsFewer(ds: seq<int>, ptrs: map<int, int>, pos: map<int, int>, size: int, d: int)
    requires Points(ds, ptrs, pos, size)
    ensures Points(Drop(ds, d), ptrs, pos, size)
  {
    hide Slot, Drop;
  }

  lemma PointAt(ds: seq<int>, ptrs: map<int, int>, pos: map<int, int>, size: int, d: int)
    requires Points(ds, ptrs, pos, size) && d in ds
    ensures d in ptrs && ptrs[d] == Slot(At(pos, d), size)
  {
  }

  class Ring {
    const size: nat                      // pcm_total_samples
    const reserve: nat                   // samples kept in front of the readers when a decoder starts
    const pcm: array<Frame>
    var wrPtr: int
    var rdPtr: int
    var decoders: seq<int>
    var wrPtrs: map<int, int>
    var pending: map<int, seq<seq<Frame>>>  // pcm_list: what is left of each decoded block
    var inputOver: set<int>
    var outputs: seq<int>
    var rdPtrs: map<int, int>
    var missed: map<int, int>
    var immediate: set<int>
    ghost var rd: int
    ghost var wr: int
    ghost var pos: map<int, int>
    ghost var out: map<int, int>
    ghost var played: seq<Voice>
    ghost var voices: seq<Voice>
    ghost var voiceOf: map<int, int>

    ghost function View(): State
      reads this, pcm
    {
      State(rd, wr, decoders, pos, outputs, out, pcm[..], played, voices, voiceOf)
    }

    /** The wrapped cursors stand for the true ones. */
    ghost predicate Linked()
      reads this
    {
      && 2 <= size == pcm.Length && size < NONE && reserve + 2 <= size
      && rdPtr == Slot(rd, size) && wrPtr == Slot(wr, size)
      && Points(decoders, wrPtrs, pos, size) && Points(outputs, rdPtrs, out, size)
      && Counts(outputs, missed)
    }

    ghost predicate Valid()
      reads this, pcm
    {
      Linked() && Good(View())
    }

    /** audio_decoder_init: only the reserve is silenced. */
    constructor (size: nat, reserve: nat)
      requires reserve + 2 <= size < NONE
      ensures Valid() && fresh(pcm) && this.reserve == reserve && pcm.Length == size
      ensures ReserveSilent(pcm[..], reserve) && View() == Fresh(pcm[..], reserve)
    {
      this.size, this.reserve := size, reserve;
      pcm := new Frame[size];
      wrPtr, rdPtr := 0, if reserve == 0 then 0 else size - reserve;
      decoders, outputs, wrPtrs, rdPtrs, missed := [], [], map[], map[], map[];
      pending, inputOver, immediate := map[], {}, {};
      rd, wr, pos, out, played, voices, voiceOf := size - reserve, size, map[], map[], [], [], map[];
      new;
      CopyTo(size - reserve, Silent(reserve));
      FreshSlots(size, reserve);
      FreshGood(pcm[..], reserve);
    }

    /** update_wr_ptr */
    method UpdateWrPtr() returns (moved: bool)
      requires Linked() && Cursors(View())
      modifies this`wrPtr, this`wr
      ensures Linked() && View() == UpdateWr(old(View())) && (moved <==> wr != old(wr))
    {
      hide Slot, Least, Within, Cursors, LeastSpan, Moved, Distance, Points;
      assert Within(decoders, pos, wr, size) by {
        CursorsWithin(View());
      }
      SpanEnds(decoders, pos, wr);
      var minDistance, i := NONE, 0;
      while i < |decoders|
        invariant 0 <= i <= |decoders| && minDistance == LeastSpan(decoders, pos, wr, i)
        decreases |decoders| - i
        modifies {}
      {
        var d := decoders[i];
        SpanStep(decoders, pos, wr, size, i);
        PointAt(decoders, wrPtrs, pos, size, d);
        if wrPtrs[d] == wrPtr {
          minDistance := 0;
          break;
        }
        var distance := Distance(wrPtr, wrPtrs[d], size);
        if distance < minDistance {
          minDistance := distance;
        }
        i := i + 1;
      }
      SpanBounds(decoders, pos, wr, size);
      moved := minDistance != 0 && minDistance != NONE;
      if moved {
        MovedSlot(wr, minDistance, size);
        wrPtr := Moved(wrPtr, minDistance, size);
        wr := wr + minDistance;
      }
    }

    /** update_rd_ptr, with an output left */
    method UpdateRdPtr() returns (moved: bool)
      requires Linked() && Cursors(View()) && outputs != []
      modifies this`rdPtr, this`rd
      ensures Linked() && View() == UpdateRd(old(View())) && (moved <==> rd != old(rd))
    {
      hide Slot, Least, Within, Cursors, LeastSpan, Moved, Distance, Points;
      assert Within(outputs, out, rd, size) by {
        CursorsWithin(View());
      }
      SpanEnds(outputs, out, rd);
      var minDistance, i := NONE, 0;
      while i < |outputs|
        invariant 0 <= i <= |outputs| && minDistance == LeastSpan(outputs, out, rd, i)
        decreases |outputs| - i
        modifies {}
      {
        var o := outputs[i];
        SpanStep(outputs, out, rd, size, i);
        PointAt(outputs, rdPtrs, out, size, o);
        if rdPtrs[o] == rdPtr {
          minDistance := 0;
          break;
        }
        var distance := Distance(rdPtr, rdPtrs[o], size);
        if distance < minDistance {
          minDistance := distance;
        }
        i := i + 1;
      }
      SpanBounds(outputs, out, rd, size);
      moved := minDistance != 0;
      if moved {
        MovedSlot(rd, minDistance, size);
        rdPtr := Moved(rdPtr, minDistance, size);
        rd := rd + minDistance;
      }
    }

    /** The search for the fastest decoder in mix_decoded_data and audio_decoder_start. */
    method FindFastest() returns (fastestWrPtr: int, maxDistance: int)
      requires Linked() && Cursors(View())
      ensures fastestWrPtr == Slot(Fastest(View()), size) && maxDistance == Fastest(View()) - wr
    {
      hide Slot, Furthest, Points, Distance;
      var i := 0;
      maxDistance, fastestWrPtr := 0, wrPtr;
      FurthestNone(pos, wr);
      while i < |decoders|
        invariant 0 <= i <= |decoders|
        invariant maxDistance == Furthest(decoders[..i], pos, wr) - wr && fastestWrPtr == Slot(wr + maxDistance, size)
        decreases |decoders| - i
        modifies {}
      {
        var d := decoders[i];
        PointAt(decoders, wrPtrs, pos, size, d);
        CursorsAt(View(), d);
        DistanceSlot(wr, At(pos, d), size);
        FurthestStep(decoders, pos, wr, i);
        var distance := Distance(wrPtr, wrPtrs[d], size);
        if maxDistance < distance {
          maxDistance := distance;
          fastestWrPtr := wrPtrs[d];
        }
        i := i + 1;
      }
      assert decoders[..|decoders|] == decoders;
    }

    /** add_to_mixed_buffer */
    method AddTo(at: nat, fs: seq<Frame>)
      requires at + |fs| <= pcm.Length
      modifies pcm
      ensures forall k :: 0 <= k < pcm.Length ==>
        pcm[k] == if at <= k < at + |fs| then Plus(old(pcm[k]), fs[k - at]) else old(pcm[k])
    {
      hide Plus;
      var i := 0;
      while i < |fs|
        invariant 0 <= i <= |fs|
        invariant forall k :: 0 <= k < pcm.Length ==>
          pcm[k] == if at <= k < at + i then Plus(old(pcm[k]), fs[k - at]) else old(pcm[k])
      {
        pcm[at + i] := Plus(pcm[at + i], fs[i]);
        i := i + 1;
      }
    }

    /** copy_to_mixed_buffer, and memset with silence */
    method CopyTo(at: nat, fs: seq<Frame>)
      requires at + |fs| <= pcm.Length
      modifies pcm
      ensures forall k :: 0 <= k < pcm.Length ==> pcm[k] == if at <= k < at + |fs| then fs[k - at] else old(pcm[k])
    {
      var i := 0;
      while i < |fs|
        invariant 0 <= i <= |fs|
        invariant forall k :: 0 <= k < pcm.Length ==> pcm[k] == if at <= k < at + i then fs[k - at] else old(pcm[k])
      {
        pcm[at + i] := fs[i];
        i := i + 1;
      }
    }

    /** The adding half of save_data_to_mixed_buffer, in two parts at the end of the array. */
    method AddRun(start: nat, fs: seq<Frame>)
      requires start < pcm.Length && |fs| <= pcm.Length
      modifies pcm
      ensures pcm[..] == Added(old(pcm[..]), start, fs)
    {
      hide Plus;
      var last := pcm.Length - start;
      if last <= |fs| {
        AddTo(start, fs[..last]);
        AddTo(0, fs[last..]);
      } else {
        AddTo(start, fs);
      }
    }

    /** The copying half. */
    method CopyRun(start: nat, fs: seq<Frame>)
      requires start < pcm.Length && |fs| <= pcm.Length
      modifies pcm
      ensures pcm[..] == Copied(old(pcm[..]), start, fs)
    {
      var last := pcm.Length - start;
      if last <= |fs| {
        CopyTo(start, fs[..last]);
        CopyTo(0, fs[last..]);
      } else {
        CopyTo(start, fs);
      }
    }

    /** save_data_to_mixed_buffer */
    method SaveData(addStart: nat, copyStart: nat, upper: nat, fs: seq<Frame>, ghost d: int) returns (dealt: nat)
      requires Linked() && Cursors(View()) && d in decoders && At(pos, d) <= Fastest(View()) <= rd + size - 2
      requires addStart == Slot(At(pos, d), size) && copyStart == Slot(Fastest(View()), size)
      requires upper == Slot(rd - 1, size)
      modifies pcm
      ensures pcm[..] == Saved(old(View()), d, fs) && dealt == Room(old(View()), d, |fs|)
    {
      hide Slot, Added, Copied, Furthest, Distance;
      ghost var p, f := At(pos, d), Fastest(View());
      CursorsAt(View(), d);
      DistanceSlot(p, f, size);
      SlotBefore(rd - 1, size);
      SlotTurn(rd - 2, size);
      DistanceSlot(f, rd + size - 2, size);
      var addSamples, copySamples := Distance(addStart, copyStart, size), 0;
      var end := if upper == 0 then size - 1 else upper - 1;
      if |fs| > addSamples {
        copySamples := Distance(copyStart, end, size);
        if copySamples > |fs| - addSamples {
          copySamples := |fs| - addSamples;
        }
      } else {
        addSamples := |fs|;
      }
      dealt := copySamples + addSamples;
      AddRun(addStart, fs[..addSamples]);
      CopyRun(copyStart, fs[addSamples..dealt]);
    }

    /** The part of audio_decoder_stop that touches the ring. */
    method StopDecoder(d: int)
      requires Linked() && Core(View()) && RdIsLeast(View())
      modifies this`decoders, this`inputOver, this`wrPtr, this`wr, this`voices
      ensures Valid() && View() == Stop(old(View()), d)
    {
      hide Core, Furthest, Least, Slot, Drop, CutAll, Cursors, Fastest, RdIsLeast, WrIsLeast, Points;
      StopGood(View(), d);
      StopLinks(View(), d);
      PointsFewer(decoders, wrPtrs, pos, size, d);
      decoders := Drop(decoders, d);
      inputOver := inputOver - {d};
      var _ := UpdateWrPtr();
      voices := CutAll(voices, Fastest(View()));
    }

    /** audio_decoder_stop */
    method AudioDecoderStop(d: int)
      requires Valid()
      modifies this`decoders, this`inputOver, this`wrPtr, this`wr, this`voices
      ensures Valid() && View() == if d in old(decoders) then Stop(old(View()), d) else old(View())
      ensures voices == old(voices) <==> !(d in old(decoders) && StopLoses(old(View()), d))
    {
      hide Core, Stop, StopLoses;
      if d in decoders {
        StopKeepsVoices(View(), d);
        StopDecoder(d);
      }
    }

    /** Where audio_decoder_start lets a decoder begin; the gap to the fastest position is silenced. */
    method PickStart() returns (start: int, ghost p: int)
      requires Linked() && Core(View())
      modifies pcm
      ensures Linked() && start == Slot(p, size)
      ensures var f := Fastest(old(View()));
              && p == (if f - rd < reserve then rd + reserve else f)
              && pcm[..] == Copied(old(pcm[..]), Slot(f, size), Silent(if p > f then p - f else 0))
    {
      hide Core, Furthest, Slot, Copied, Distance, Moved, Fastest, Cursors, Points;
      CoreCursors(View());
      StartSpan(View(), reserve);
      var fastestWrPtr, maxDistance := FindFastest();
      start, p := fastestWrPtr, Fastest(View());
      var available := Distance(rdPtr, fastestWrPtr, size);
      if available < reserve {
        p := rd + reserve;
        start := Moved(rdPtr, reserve, size);
        SilenceGap(fastestWrPtr, start);
      } else {
        NoGap(pcm[..], fastestWrPtr);
      }
    }

    /** The decoder goes onto the list at its starting position, with the gap silenced. */
    method Join(d: int)
      requires Linked() && Core(View()) && d !in decoders
      modifies this`wrPtrs, this`decoders, this`pos, this`voiceOf, this`played, this`voices, pcm
      ensures Linked() && View() == Joined(old(View()), d, reserve)
    {
      hide Core, Slot, Copied, Fastest, Points;
      var start;
      ghost var p;
      start, p := PickStart();
      PointsAdded(decoders, wrPtrs, pos, size, d, p);
      wrPtrs := wrPtrs[d := start];
      decoders := decoders + [d];
      pos := pos[d := p];
      voiceOf := voiceOf[d := |voices|];
      played := played + [Voice(p, [])];
      voices := voices + [Voice(p, [])];
    }

    /** audio_decoder_start */
    method AudioDecoderStart(d: int)
      requires Valid()
      modifies this`wrPtrs, this`decoders, this`pos, this`voiceOf, this`played, this`voices, this`wrPtr, this`wr, pcm
      ensures Valid() && View() == if d in old(decoders) then old(View()) else Start(old(View()), d, reserve)
    {
      hide Core, Furthest, Least, Slot, Copied, Fastest, Cursors, RdIsLeast, WrIsLeast, Points;
      if d !in decoders {
        StartGood(View(), d, reserve);
        CoreCursors(View());
        JoinedCursors(View(), d, reserve);
        Join(d);
        var _ := UpdateWrPtr();
      }
    }

    /** The two memset branches of audio_decoder_start. */
    method SilenceGap(from: nat, to: nat)
      requires from < pcm.Length && to < pcm.Length && from != to
      modifies pcm
      ensures pcm[..] == Copied(old(pcm[..]), from, Silent(Distance(from, to, pcm.Length)))
    {
      if to > from {
        CopyTo(from, Silent(to - from));
      } else {
        CopyTo(from, Silent(pcm.Length - from));
        CopyTo(0, Silent(to));
      }
    }

    /** mix_decoded_data */
    method MixDecodedData(d: int)
      requires Valid() && d in decoders && d in pending && BlocksFit(pending[d])
      modifies this, pcm
      ensures Valid() && View() == Mix(old(View()), d, old(pending)[d], d in old(inputOver))
      ensures old(pending)[d] != [] ==> d in pending && pending[d] == MixBlocks(old(View()), d, old(pending)[d]).1
    {
      hide Core, Furthest, Least, Slot, Saved, Distance, Moved, BlocksFit, MixBlocks, Stop, Room, Fastest, Points,
           RdIsLeast, WrIsLeast;
      ghost var s := View();
      var blocks := pending[d];
      if blocks != [] {
        MixGood(s, d, blocks, d in inputOver);
        MixBlocksRd(s, d, blocks);
        blocks := MixWaiting(d);
        pending := pending[d := blocks];
        if d in inputOver && blocks == [] {
          StopDecoder(d);
        }
        CoreCursors(View());
        var _ := UpdateWrPtr();
      }
    }

    /** The loop of mix_decoded_data over the waiting blocks. */
    method MixWaiting(d: int) returns (blocks: seq<seq<Frame>>)
      requires Linked() && Core(View()) && d in decoders && d in pending && BlocksFit(pending[d])
      modifies this`wrPtrs, this`pos, this`played, this`voices, pcm
      ensures Linked() && Core(View()) && (View(), blocks) == MixBlocks(old(View()), d, old(pending)[d])
    {
      hide Core, Furthest, Least, Slot, Saved, Distance, Moved, BlocksFit, MixBlocks, Room, Fastest;
      ghost var goal := MixBlocks(View(), d, pending[d]);
      CoreCursors(View());
      var fastestWrPtr, maxDistance := FindFastest();
      blocks := pending[d];
      while blocks != []
        invariant Linked() && Core(View()) && BlocksFit(blocks) && MixBlocks(View(), d, blocks) == goal
        invariant fastestWrPtr == Slot(Fastest(View()), size)
        invariant maxDistance == Fastest(View()) - wr
          || (Fastest(View()) == At(pos, d) && maxDistance <= Fastest(View()) - wr)
        decreases |blocks|
      {
        MixUnroll(View(), d, blocks);
        var dealt := SaveBlock(d, fastestWrPtr, blocks[0]);
        if dealt == |blocks[0]| {
          blocks := blocks[1..];
          FastestInTurn(View());
          CoreCursors(View());
          CursorsAt(View(), d);
          DistanceSlot(wr, At(pos, d), size);
          var distance := Distance(wrPtr, wrPtrs[d], size);
          if distance > maxDistance {
            fastestWrPtr := wrPtrs[d];
          }
        } else {
          blocks := [blocks[0][dealt..]] + blocks[1..];
          return;
        }
      }
      MixNone(View(), d);
    }

    /** One block: as much as there is room for, and the decoder's cursor moved on. */
    method SaveBlock(d: int, fastestWrPtr: int, fs: seq<Frame>) returns (dealt: nat)
      requires Linked() && Core(View()) && d in decoders && AllFit(fs)
      requires fastestWrPtr == Slot(Fastest(View()), size)
      modifies this`wrPtrs, this`pos, this`played, this`voices, pcm
      ensures Linked() && old(At(pos, d) <= Fastest(View()) <= rd + size - 2) && View() == Save(old(View()), d, fs)
      ensures dealt == Room(old(View()), d, |fs|) && Core(View())
      ensures Fastest(View()) ==
        (var e := old(At(pos, d)) + dealt; if e > old(Fastest(View())) then e else old(Fastest(View())))
      ensures At(pos, d) == old(At(pos, d)) + dealt
    {
      hide Core, Furthest, Least, Slot, Saved, Distance, Moved, Fastest, Room, Points, Cursors, Played;
      CoreCursors(View());
      SaveCore(View(), d, fs);
      CursorsAt(View(), d);
      PointAt(decoders, wrPtrs, pos, size, d);
      SlotBefore(rd, size);
      RoomInTurn(View(), d, |fs|);
      dealt := SaveData(wrPtrs[d], fastestWrPtr, if rdPtr == 0 then size - 1 else rdPtr - 1, fs, d);
      MovedSlot(At(pos, d), dealt, size);
      PointsMoved(decoders, wrPtrs, pos, size, d, At(pos, d) + dealt);
      wrPtrs := wrPtrs[d := Moved(wrPtrs[d], dealt, size)];
      pos := pos[d := At(pos, d) + dealt];
      played := Played(played, At(voiceOf, d), fs[..dealt]);
      voices := Played(voices, At(voiceOf, d), fs[..dealt]);
    }

    /** audio_decoder_output_add */
    method OutputAdd(o: int, atOnce: bool)
      requires Valid() && o !in outputs
      modifies this`outputs, this`rdPtrs, this`out, this`missed, this`immediate
      ensures Valid() && View() == AddOutput(old(View()), o)
    {
      hide Core, Furthest, Least, Slot, RdIsLeast, WrIsLeast, Good, Points, Cursors, At, Fastest, Counts;
      CountsAdded(outputs, missed, o);
      AddOutputGood(View(), o);
      PointsAdded(outputs, rdPtrs, out, size, o, rd);
      immediate := if atOnce then immediate + {o} else immediate - {o};
      missed := missed[o := 0];
      rdPtrs := rdPtrs[o := rdPtr];
      out := out[o := rd];
      outputs := outputs + [o];
    }

    /** audio_decoder_output_remove, while another output is left */
    method OutputRemove(o: int)
      requires Valid() && Drop(outputs, o) != []
      modifies this`outputs, this`rdPtr, this`rd
      ensures Valid() && View() == RemoveOutput(old(View()), o)
    {
      hide Core, Furthest, Least, Slot, Drop, Points, RdIsLeast, WrIsLeast, Cursors;
      RemoveOutputGood(View(), o);
      PointsFewer(outputs, rdPtrs, out, size, o);
      RemoveCursors(View(), o);
      outputs := Drop(outputs, o);
      var _ := UpdateRdPtr();
    }

    /** Copies n frames out of the ring from a cursor, in two parts at the end of the array; the cursor moves on. */
    method CopyOut(from: nat, n: nat, ghost p: int) returns (data: seq<Frame>, next: nat)
      requires from < pcm.Length && n <= pcm.Length && from == Slot(p, pcm.Length)
      ensures |data| == n && forall i :: 0 <= i < n ==> data[i] == pcm[..][Slot(p + i, pcm.Length)]
      ensures n < pcm.Length ==> next == Slot(p + n, pcm.Length)
    {
      hide Slot;
      var tail := pcm.Length - from;
      var rest := n;
      next, data := from, [];
      if rest >= tail {
        data := pcm[from..];
        rest := rest - tail;
        next := 0;
      }
      if rest > 0 {
        data := data + pcm[next..next + rest];
        next := next + rest;
      }
      forall i | 0 <= i < n
        ensures data[i] == pcm[..][Slot(p + i, pcm.Length)]
      {
        MovedSlot(p, i, pcm.Length);
      }
      if n < pcm.Length {
        MovedSlot(p, n, pcm.Length);
      }
    }

    /** The output's own cursor: some frames are skipped, some taken. */
    method Take(o: int, skip: nat, take: nat) returns (data: seq<Frame>)
      requires Linked() && o in outputs && skip + take < size
      modifies this`rdPtrs, this`out
      ensures Linked() && View() == old(View()).(out := old(out)[o := old(At(out, o)) + skip + take])
      ensures data == Next(old(View()), o, skip + take)[skip..]
    {
      hide Slot, Moved, Next, Points;
      ghost var s, p := View(), At(out, o);
      PointAt(outputs, rdPtrs, out, size, o);
      PointsMoved(outputs, rdPtrs, out, size, o, p + skip + take);
      MovedSlot(p, skip, size);
      var from := Moved(rdPtrs[o], skip, size);
      var next;
      data, next := CopyOut(from, take, p + skip);
      NextFrom(s, o, skip, take, data);
      rdPtrs := rdPtrs[o := next];
      out := out[o := p + skip + take];
    }

    /** The reading part of audio_decoder_get_pcm: frames are taken, and the global cursor follows. */
    method Fetch(o: int, skip: nat, take: nat) returns (data: seq<Frame>)
      requires Valid() && o in outputs && At(out, o) + skip + take <= wr
      modifies this`rdPtrs, this`out, this`rdPtr, this`rd
      ensures Valid() && View() == Read(old(View()), o, skip + take)
      ensures data == Next(old(View()), o, skip + take)[skip..]
    {
      hide Good, Next, Slot, Cursors, Least;
      OutputInTurn(View(), o);
      ReadGood(View(), o, skip + take);
      ReadCursors(View(), o, skip + take);
      data := Take(o, skip, take);
      var _ := UpdateRdPtr();
    }

    /**
     audio_decoder_get_pcm: frames missed before are skipped first; an immediate output is filled up with
     silence, which counts as missed. Without a decoder and with nothing left to consume it is all silence.
     */
    method GetPcm(o: int, samples: nat, draining: bool) returns (data: seq<Frame>, valid: nat)
      requires Valid() && o in outputs
      modifies this`rdPtrs, this`out, this`missed, this`rdPtr, this`rd
      ensures Valid()
      ensures old(decoders) == [] && !draining ==> data == Silent(samples) && valid == samples && View() == old(View())
      ensures old(decoders) != [] || draining ==>
        var s, n := old(View()), wr - old(At(out, o));
        var skip := if old(missed)[o] < n then old(missed)[o] else n;
        var take := if n - skip > samples then samples else n - skip;
        && n >= 0 && View() == Read(s, o, skip + take)
        && data == Next(s, o, skip + take)[skip..] + Silent(if o in immediate then samples - take else 0)
        && valid == |data|
        && missed == old(missed)[o := old(missed)[o] - skip + (if o in immediate then samples - take else 0)]
    {
      hide Good, Slot, Distance, Next, Read, Points;
      if decoders == [] && !draining {
        data, valid := Silent(samples), samples;
      } else {
        OutputInTurn(View(), o);
        PointAt(outputs, rdPtrs, out, size, o);
        DistanceSlot(At(out, o), wr, size);
        var available := Distance(rdPtrs[o], wrPtr, size);
        var skip, fill := 0, 0;
        if missed[o] != 0 {
          skip := if missed[o] < available then missed[o] else available;
          available := available - skip;
        }
        if available > samples {
          available := samples;
          valid := samples;
        } else if o in immediate {
          fill := samples - available;
          valid := samples;
        } else {
          valid := available;
        }
        data := Fetch(o, skip, available);
        data := data + Silent(fill);
        missed := missed[o := missed[o] - skip + fill];
      }
    }
  }

  lemma FreshSlots(size: nat, reserve: nat)
    requires reserve + 2 <= size
    ensures Slot(size, size) == 0 && Slot(size - reserve, size) == if reserve == 0 then 0 else size - reserve
  {
    ModUnique(size, size, 1, 0);
    if reserve > 0 {
      SlotInFirst(size - reserve, size);
    }
  }

  lemma CoreCursors(s: State)
    requires Core(s)
    ensures Cursors(s)
  {
  }

  lemma FastestInTurn(s: State)
    requires Core(s)
    ensures s.rd <= s.wr <= Fastest(s) <= s.rd + |s.cells| - 2
  {
  }

  lemma RoomInTurn(s: State, d: int, len: nat)
    requires Core(s) && d in s.started && At(s.pos, d) <= Fastest(s) <= s.rd + |s.cells| - 2
    ensures Room(s, d, len) < |s.cells|
  {
  }

  lemma StopLinks(s: State, d: int)
    requires Core(s)
    ensures Cursors(s.(started := Drop(s.started, d)))
  {
  }

  lemma RemoveCursors(s: State, o: int)
    requires Good(s)
    ensures Cursors(s.(outputs := Drop(s.outputs, o)))
  {
  }

  lemma ReadCursors(s: State, o: int, n: nat)
    requires Good(s) && o in s.outputs && At(s.out, o) + n <= s.wr
    ensures Cursors(s.(out := s.out[o := At(s.out, o) + n]))
  {
  }

  lemma OutputInTurn(s: State, o: int)
    requires Good(s) && o in s.outputs
    ensures s.rd <= At(s.out, o) <= s.wr <= s.rd + |s.cells| - 2 && 2 <= |s.cells|
  {
  }

  lemma StartSpan(s: State, reserve: nat)
    requires Core(s) && reserve + 2 <= |s.cells|
    ensures var f, size := Fastest(s), |s.cells|;
            && Distance(Slot(s.rd, size), Slot(f, size), size) == f - s.rd
            && Moved(Slot(s.rd, size), reserve, size) == Slot(s.rd + reserve, size)
            && (f - s.rd < reserve ==> Distance(Slot(f, size), Slot(s.rd + reserve, size), size) == s.rd + reserve - f
                                       && Slot(f, size) != Slot(s.rd + reserve, size))
  {
    hide Core, Fastest, Slot, Distance, Moved;
    var f, size := Fastest(s), |s.cells|;
    FastestInTurn(s);
    DistanceSlot(s.rd, f, size);
    MovedSlot(s.rd, reserve, size);
    if f - s.rd < reserve {
      DistanceSlot(f, s.rd + reserve, size);
      SlotEqual(f, s.rd + reserve, size);
    }
  }

  lemma NextFrom(s: State, o: int, skip: nat, take: nat, data: seq<Frame>)
    requires |s.cells| > 0 && |data| == take
    requires forall i :: 0 <= i < take ==> data[i] == s.cells[Slot(At(s.out, o) + skip + i, |s.cells|)]
    ensures data == Next(s, o, skip + take)[skip..]
  {
  }

  lemma NoGap(cells: seq<Frame>, s: int)
    ensures Copied(cells, s, Silent(0)) == cells
  {
  }

  ghost predicate Within(ds: seq<int>, pos: map<int, int>, lo: int, size: int) {
    forall x :: x in ds ==> lo <= At(pos, x) <= lo + size - 2
  }

  lemma CursorsWithin(s: State)
    requires Cursors(s)
    ensures Within(s.outputs, s.out, s.rd, |s.cells|) && Within(s.started, s.pos, s.wr, |s.cells|)
  {
  }

  /** What min_distance holds after the first i entries of a list. */
  ghost function LeastSpan(ds: seq<int>, pos: map<int, int>, lo: int, i: nat): int
    requires i <= |ds|
  {
    if i == 0 then NONE else Least(ds[..i], pos) - lo
  }

  lemma SpanEnds(ds: seq<int>, pos: map<int, int>, lo: int)
    ensures LeastSpan(ds, pos, lo, 0) == NONE
    ensures ds != [] ==> LeastSpan(ds, pos, lo, |ds|) == Least(ds, pos) - lo
  {
    assert ds[..|ds|] == ds;
  }

  lemma SpanBounds(ds: seq<int>, pos: map<int, int>, lo: int, size: int)
    requires Within(ds, pos, lo, size)
    ensures ds != [] ==> 0 <= Least(ds, pos) - lo < size
  {
  }

  /** One more entry: its distance is the true one, and a distance of 0 is the least. */
  lemma SpanStep(ds: seq<int>, pos: map<int, int>, lo: int, size: int, i: nat)
    requires Within(ds, pos, lo, size) && i < |ds| && 0 < size < NONE
    ensures Distance(Slot(lo, size), Slot(At(pos, ds[i]), size), size) == At(pos, ds[i]) - lo < NONE
    ensures Slot(lo, size) == Slot(At(pos, ds[i]), size) ==> Least(ds, pos) == lo
    ensures LeastSpan(ds, pos, lo, i + 1) ==
      if At(pos, ds[i]) - lo < LeastSpan(ds, pos, lo, i) then At(pos, ds[i]) - lo else LeastSpan(ds, pos, lo, i)
  {
    hide Slot;
    var d := ds[i];
    assert d in ds;
    DistanceSlot(lo, At(pos, d), size);
    SlotEqual(lo, At(pos, d), size);
    assert ds[..i + 1][..i] == ds[..i];
    LeastIn(ds, pos, lo);
  }

  lemma FurthestNone(pos: map<int, int>, w: int)
    ensures Furthest([], pos, w) == w
  {
  }

  lemma FurthestStep(ds: seq<int>, pos: map<int, int>, w: int, i: nat)
    requires i < |ds|
    ensures Furthest(ds[..i + 1], pos, w) ==
      if At(pos, ds[i]) > Furthest(ds[..i], pos, w) then At(pos, ds[i]) else Furthest(ds[..i], pos, w)
    ensures Furthest(ds[..0], pos, w) == w
  {
    assert ds[..i + 1][..i] == ds[..i];
  }
}
