/**
 Where decoders and outputs of the mixing ring stand after every operation: decoded frames go in in order and
 as far as there is room, nothing waiting is dropped, and every output reads on where it stopped.
 */
module MixMoves {
  import opened Turns
  import opened MixSpec

  // ---------------------------------------------------------------- decoders

  /** The frames of some blocks, one after the other. */
  function Flat(blocks: seq<seq<Frame>>): (fs: seq<Frame>)
    ensures |fs| == Total(blocks)
  {
    if blocks == [] then [] else blocks[0] + Flat(blocks[1..])
  }

  /** All that decoder d has played since it was started. */
  function PlayedBy(s: State, d: int): seq<Frame> {
    if 0 <= At(s.voiceOf, d) < |s.played| then s.played[At(s.voiceOf, d)].frames else []
  }

  lemma SaveMoves(s: State, d: int, fs: seq<Frame>)
    requires Core(s) && Recorded(s) && d in s.started
    requires |s.cells| > 0 && At(s.pos, d) <= Fastest(s) <= s.rd + |s.cells| - 2
    ensures var u, n := Save(s, d, fs), Room(s, d, |fs|);
            && At(u.pos, d) == At(s.pos, d) + n && PlayedBy(u, d) == PlayedBy(s, d) + fs[..n]
            && u.rd == s.rd && |u.cells| == |s.cells|
  {
    hide Core, Fastest, Saved, Room;
  }

  lemma TwoParts(p: seq<Frame>, a: seq<Frame>, b: seq<Frame>, n: int)
    requires 0 <= n <= |b|
    ensures (p + a[..|a|]) + b[..n] == p + (a + b)[..|a| + n] && (a + b)[|a| + n..] == b[n..]
  {
  }

  /**
   One call of mix_decoded_data puts down a leading part of the waiting frames, in order, and leaves the rest
   waiting. It stops short only where the decoder is two cells short of a full turn ahead of the readers.
   */
  lemma {:induction false} MixTakesInOrder(s: State, d: int, blocks: seq<seq<Frame>>)
    requires Core(s) && Recorded(s) && d in s.started && BlocksFit(blocks)
    ensures var (u, left) := MixBlocks(s, d, blocks);
            var n := At(u.pos, d) - At(s.pos, d);
            && 0 <= n <= |Flat(blocks)| && (n == |Flat(blocks)| || At(u.pos, d) == s.rd + |s.cells| - 2)
            && PlayedBy(u, d) == PlayedBy(s, d) + Flat(blocks)[..n] && Flat(left) == Flat(blocks)[n..]
            && u.rd == s.rd && |u.cells| == |s.cells|
    decreases |blocks|
  {
    hide Core, Fastest, Saved, BlocksFit, Room, Recorded, PlayedBy, MixBlocks, Flat, Total, Save;
    if blocks == [] {
      MixNone(s, d);
      FlatNone();
    } else {
      MixUnroll(s, d, blocks);
      var n, u := Room(s, d, |blocks[0]|), Save(s, d, blocks[0]);
      SaveRecorded(s, d, blocks[0]);
      SaveMoves(s, d, blocks[0]);
      SaveStarted(s, d, blocks[0]);
      FlatStep(blocks);
      if n == |blocks[0]| {
        MixTakesInOrder(u, d, blocks[1..]);
        var v := MixBlocks(u, d, blocks[1..]).0;
        TwoParts(PlayedBy(s, d), blocks[0], Flat(blocks[1..]), At(v.pos, d) - At(u.pos, d));
      } else {
        FlatSplit(blocks, n);
      }
    }
  }

  lemma FlatNone()
    ensures Flat([]) == []
  {
  }

  lemma FlatStep(blocks: seq<seq<Frame>>)
    requires blocks != []
    ensures Flat(blocks) == blocks[0] + Flat(blocks[1..])
  {
  }

  lemma SaveStarted(s: State, d: int, fs: seq<Frame>)
    requires |s.cells| > 0 && At(s.pos, d) <= Fastest(s) <= s.rd + |s.cells| - 2
    ensures Save(s, d, fs).started == s.started
  {
  }

  lemma FlatSplit(blocks: seq<seq<Frame>>, n: nat)
    requires blocks != [] && n <= |blocks[0]|
    ensures Flat(blocks)[..n] == blocks[0][..n] && Flat([blocks[0][n..]] + blocks[1..]) == Flat(blocks)[n..]
  {
    assert ([blocks[0][n..]] + blocks[1..])[1..] == blocks[1..];
  }

  /** The call stops the decoder exactly if its input is over and all that was waiting has gone in; no other one. */
  lemma MixStops(s: State, d: int, blocks: seq<seq<Frame>>, inputOver: bool, e: int)
    requires Good(s) && d in s.started && BlocksFit(blocks)
    ensures e in Mix(s, d, blocks, inputOver).started <==>
      e in s.started && !(e == d && inputOver && blocks != [] && At(s.pos, d) + |Flat(blocks)| <= s.rd + |s.cells| - 2)
  {
    hide Core, Fastest, BlocksFit, MixBlocks, Least, Drop, Flat, Total, CutAll;
    MixBlocksEnds(s, d, blocks);
  }

  /**
   A decoder that is started begins at the furthest position any other has reached, or the reserve ahead of
   the readers if that is further; nobody else moves.
   */
  lemma StartJoins(s: State, d: int, reserve: nat, e: int)
    requires Good(s) && d !in s.started && reserve + 2 <= |s.cells|
    ensures var u := Start(s, d, reserve);
            && At(u.pos, d) >= Fastest(s) && At(u.pos, d) >= s.rd + reserve
            && (At(u.pos, d) == Fastest(s) || At(u.pos, d) == s.rd + reserve)
            && (e in u.started <==> e in s.started || e == d) && (e != d ==> At(u.pos, e) == At(s.pos, e))
            && u.rd == s.rd && u.outputs == s.outputs && u.out == s.out
  {
    hide Core, Fastest, Least, Copied;
  }

  lemma StopLeaves(s: State, d: int, e: int)
    requires Good(s) && d in s.started
    ensures var u := Stop(s, d);
            && (e in u.started <==> e in s.started && e != d) && u.pos == s.pos && u.cells == s.cells
            && u.rd == s.rd && u.outputs == s.outputs && u.out == s.out
  {
    hide Core, Fastest, Least, CutAll, Drop;
  }

  // ---------------------------------------------------------------- outputs

  function FramesRead(op: Op, o: int): nat {
    if op.OpRead? && op.output == o then op.frames else 0
  }

  /** Who listens after any operation, and where: on from where it was by what it has just read. */
  lemma StepOutputs(s: State, reserve: nat, op: Op, o: int)
    requires Good(s) && Enabled(s, reserve, op)
    ensures var u := Apply(s, reserve, op);
            && (o in u.outputs <==> (o in s.outputs && op != OpRemoveOutput(o)) || op == OpAddOutput(o))
            && (o in s.outputs ==> At(u.out, o) == At(s.out, o) + FramesRead(op, o))
            && (op == OpAddOutput(o) ==> At(u.out, o) == s.rd)
  {
    hide Core, WrIsLeast, RdIsLeast, BlocksFit, Fastest, Least, Drop, MixBlocks, CutAll, Copied;
    match op
    case OpMix(d, blocks, inputOver) =>
      if blocks != [] {
        MixBlocksRd(s, d, blocks);
      }
    case _ =>
  }

  /** What output o reads from operation i to operation j. */
  function AllRead(ops: seq<Op>, o: int, i: nat, j: nat): nat
    requires i <= j <= |ops|
  {
    if i == j then 0 else AllRead(ops, o, i, j - 1) + FramesRead(ops[j - 1], o)
  }

  /**
   An output hears every position once: in every run, as long as it is there, its position moves on by
   exactly the frames it reads, so that each read begins where the one before ended.
   */
  lemma {:induction false} OutputsReadOn(states: seq<State>, reserve: nat, ops: seq<Op>, i: nat, j: nat, o: int)
    requires Run(states, reserve, ops) && i <= j <= |ops| && o in states[i].outputs
    requires forall k :: i <= k < j ==> ops[k] != OpRemoveOutput(o)
    ensures o in states[j].outputs && At(states[j].out, o) == At(states[i].out, o) + AllRead(ops, o, i, j)
  {
    hide Good, Enabled, Apply;
    if i < j {
      OutputsReadOn(states, reserve, ops, i, j - 1, o);
      RunGood(states, reserve, ops, j - 1);
      StepOutputs(states[j - 1], reserve, ops[j - 1], o);
    }
  }
}
