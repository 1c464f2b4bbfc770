/**
 The PCM mixing ring in unbounded stream positions. Every started decoder has a write position, every
 output a read position; the global ones are their minima. A decoder behind the fastest adds into cells
 that are already written, the fastest one copies. Proved over all runs: the cells a listener will get
 hold the sums of what the decoders played there, less what stopping a decoder takes back, readers never
 pass writers, and nothing unread is overwritten; and exactly when a stop takes something back.
 */
module MixSpec {
  import opened Turns

  /** One sample per channel; a mono stream leaves the right one at 0. */
  datatype Frame = Frame(left: int, right: int)

  const SILENCE := Frame(0, 0)

  /** A 16-bit store. */
  function Clip16(x: int): (r: int)
    ensures -32768 <= r < 32768 && (x - r) % 65536 == 0
  {
    (x + 32768) % 65536 - 32768
  }

  function Clip(f: Frame): Frame { Frame(Clip16(f.left), Clip16(f.right)) }

  function Sum(a: Frame, b: Frame): Frame { Frame(a.left + b.left, a.right + b.right) }

  /** What `*mixed_pcm_ptr += *src` leaves in 16-bit cells. */
  function Plus(a: Frame, b: Frame): Frame { Clip(Sum(a, b)) }

  predicate Fits(f: Frame) { Clip(f) == f }

  lemma ClipSum(a: Frame, b: Frame)
    ensures Plus(Clip(a), b) == Clip(Sum(a, b))
  {
  }

  // ---------------------------------------------------------------- cells

  /** fs added into, or copied over, the cells from s on. */
  function Added(cells: seq<Frame>, s: int, fs: seq<Frame>): (r: seq<Frame>)
    ensures |r| == |cells|
  {
    seq(|cells|, k requires 0 <= k < |cells| =>
      var i := Behind(k, s, |cells|); if 0 <= i < |fs| then Plus(cells[k], fs[i]) else cells[k])
  }

  function Copied(cells: seq<Frame>, s: int, fs: seq<Frame>): (r: seq<Frame>)
    ensures |r| == |cells|
  {
    seq(|cells|, k requires 0 <= k < |cells| =>
      var i := Behind(k, s, |cells|); if 0 <= i < |fs| then fs[i] else cells[k])
  }

  function Silent(n: nat): (r: seq<Frame>)
    ensures |r| == n && forall i :: 0 <= i < n ==> r[i] == SILENCE
  {
    seq(n, _ => SILENCE)
  }

  /** In a window of one turn that holds the run, a write changes the positions of the run only. */
  lemma AddedAt(cells: seq<Frame>, p: int, fs: seq<Frame>, lo: int, q: int)
    requires 0 < |cells| && lo <= p && p + |fs| <= lo + |cells| && lo <= q < lo + |cells|
    ensures Added(cells, Slot(p, |cells|), fs)[Slot(q, |cells|)] ==
      if p <= q < p + |fs| then Plus(cells[Slot(q, |cells|)], fs[q - p]) else cells[Slot(q, |cells|)]
  {
    InRun(p, |fs|, lo, q, |cells|);
  }

  lemma CopiedAt(cells: seq<Frame>, p: int, fs: seq<Frame>, lo: int, q: int)
    requires 0 < |cells| && lo <= p && p + |fs| <= lo + |cells| && lo <= q < lo + |cells|
    ensures Copied(cells, Slot(p, |cells|), fs)[Slot(q, |cells|)] ==
      if p <= q < p + |fs| then fs[q - p] else cells[Slot(q, |cells|)]
  {
    InRun(p, |fs|, lo, q, |cells|);
  }

  // ---------------------------------------------------------------- what was played

  /** What one decoder has played since it was started. */
  datatype Voice = Voice(start: int, frames: seq<Frame>) {
    function End(): int { start + |frames| }
  }

  function Heard(v: Voice, p: int): Frame {
    if v.start <= p < v.End() then v.frames[p - v.start] else SILENCE
  }

  /** Everything the voices play at position p. */
  function Mixed(voices: seq<Voice>, p: int): Frame {
    if voices == [] then SILENCE else Sum(Mixed(voices[..|voices| - 1], p), Heard(voices[|voices| - 1], p))
  }

  lemma Shuffle(a: Frame, b: Frame, c: Frame)
    ensures Sum(Sum(a, b), c) == Sum(Sum(a, c), b)
  {
  }

  lemma {:induction false} MixedUpdate(voices: seq<Voice>, i: nat, v: Voice, p: int)
    requires i < |voices|
    ensures Sum(Mixed(voices[i := v], p), Heard(voices[i], p)) == Sum(Mixed(voices, p), Heard(v, p))
  {
    hide Heard, Sum;
    var n := |voices| - 1;
    var m := Mixed(voices[..n], p);
    if i == n {
      assert voices[i := v][..n] == voices[..n];
      Shuffle(m, Heard(v, p), Heard(voices[i], p));
    } else {
      assert voices[i := v][..n] == voices[..n][i := v];
      MixedUpdate(voices[..n], i, v, p);
      Shuffle(Mixed(voices[..n][i := v], p), Heard(voices[n], p), Heard(voices[i], p));
      Shuffle(m, Heard(voices[n], p), Heard(v, p));
    }
  }

  /** Nothing is heard behind the end of every voice. */
  lemma {:induction false} NothingBehind(voices: seq<Voice>, p: int)
    requires forall i :: 0 <= i < |voices| ==> voices[i].End() <= p
    ensures Mixed(voices, p) == SILENCE
  {
    hide Heard, Sum;
    if voices != [] {
      var n := |voices| - 1;
      var before := Mixed(voices[..n], p);
      NothingBehind(voices[..n], p);
      HeardBehind(voices[n], p);
      SumSilence(before, Heard(voices[n], p));
    }
  }

  lemma SumSilence(a: Frame, b: Frame)
    requires a == SILENCE && b == SILENCE
    ensures Sum(a, b) == SILENCE
  {
  }

  lemma HeardBehind(v: Voice, p: int)
    requires v.End() <= p
    ensures Heard(v, p) == SILENCE
  {
  }

  lemma MixedAppend(voices: seq<Voice>, v: Voice, p: int)
    ensures Mixed(voices + [v], p) == Sum(Mixed(voices, p), Heard(v, p))
  {
    assert (voices + [v])[..|voices|] == voices;
  }

  /** A voice without what it played from position f on. */
  function Cut(v: Voice, f: int): (r: Voice)
    ensures r.End() <= f
  {
    if v.End() <= f then v else if v.start <= f then Voice(v.start, v.frames[..f - v.start]) else Voice(f, [])
  }

  function CutAll(voices: seq<Voice>, f: int): (r: seq<Voice>)
    ensures |r| == |voices| && forall i :: 0 <= i < |voices| ==> r[i] == Cut(voices[i], f)
  {
    seq(|voices|, i requires 0 <= i < |voices| => Cut(voices[i], f))
  }

  lemma {:induction false} CutMixed(voices: seq<Voice>, f: int, p: int)
    requires p < f
    ensures Mixed(CutAll(voices, f), p) == Mixed(voices, p)
  {
    hide Heard, Sum, Cut;
    if voices != [] {
      var n := |voices| - 1;
      CutMixed(voices[..n], f, p);
      CutHeard(voices[n], f, p);
      assert CutAll(voices, f)[..n] == CutAll(voices[..n], f);
    }
  }

  lemma CutHeard(v: Voice, f: int, p: int)
    requires p < f
    ensures Heard(Cut(v, f), p) == Heard(v, p)
  {
  }

  // ---------------------------------------------------------------- state and steps

  datatype State = State(
    rd: int,                  // true positions of the global cursors
    wr: int,
    started: seq<int>,        // decoder_list
    pos: map<int, int>,       // write position of a decoder
    outputs: seq<int>,        // output_list
    out: map<int, int>,       // read position of an output
    cells: seq<Frame>,        // the mixed pcm buffer
    played: seq<Voice>,       // history: all that each started decoder has put into the ring
    voices: seq<Voice>,       // of that, what stops of other decoders and its own have left in place
    voiceOf: map<int, int>
  )

  function At(m: map<int, int>, d: int): int { if d in m then m[d] else 0 }

  /** The furthest of w and the positions of ds. */
  function Furthest(ds: seq<int>, pos: map<int, int>, w: int): (r: int)
    ensures r >= w && forall i :: 0 <= i < |ds| ==> At(pos, ds[i]) <= r
    ensures r == w || exists i :: 0 <= i < |ds| && r == At(pos, ds[i])
  {
    if ds == [] then w
    else var n := |ds| - 1; var r := Furthest(ds[..n], pos, w); if At(pos, ds[n]) > r then At(pos, ds[n]) else r
  }

  /** The least position of ds. */
  function Least(ds: seq<int>, pos: map<int, int>): (r: int)
    requires ds != []
    ensures forall i :: 0 <= i < |ds| ==> r <= At(pos, ds[i])
    ensures exists i :: 0 <= i < |ds| && r == At(pos, ds[i])
  {
    var n := |ds| - 1;
    if n == 0 then At(pos, ds[0]) else var r := Least(ds[..n], pos); if At(pos, ds[n]) < r then At(pos, ds[n]) else r
  }

  function Fastest(s: State): int { Furthest(s.started, s.pos, s.wr) }

  /** update_wr_ptr */
  function UpdateWr(s: State): State {
    if s.started == [] then s else s.(wr := Least(s.started, s.pos))
  }

  /** update_rd_ptr, with an output left */
  function UpdateRd(s: State): State {
    if s.outputs == [] then s else s.(rd := Least(s.outputs, s.out))
  }

  /** How many of len frames decoder d can put down: up to the fastest position, and on to two short of a full turn. */
  function Room(s: State, d: int, len: nat): (n: int)
    requires At(s.pos, d) <= Fastest(s) <= s.rd + |s.cells| - 2
    ensures 0 <= n <= len && At(s.pos, d) + n <= s.rd + |s.cells| - 2
    ensures n == len || At(s.pos, d) + n == s.rd + |s.cells| - 2
  {
    var add := Fastest(s) - At(s.pos, d);
    if len <= add then len
    else if s.rd + |s.cells| - 2 - Fastest(s) > len - add then len
    else add + (s.rd + |s.cells| - 2 - Fastest(s))
  }

  /** What save_data_to_mixed_buffer does to the cells. */
  function Saved(s: State, d: int, fs: seq<Frame>): (cells: seq<Frame>)
    requires |s.cells| > 0 && At(s.pos, d) <= Fastest(s) <= s.rd + |s.cells| - 2
    ensures |cells| == |s.cells|
  {
    var p, f, n := At(s.pos, d), Fastest(s), Room(s, d, |fs|);
    var add := if n <= f - p then n else f - p;
    Copied(Added(s.cells, Slot(p, |s.cells|), fs[..add]), Slot(f, |s.cells|), fs[add..n])
  }

  function Played(voices: seq<Voice>, i: int, fs: seq<Frame>): (r: seq<Voice>)
    ensures |r| == |voices|
  {
    if 0 <= i < |voices| then voices[i := Voice(voices[i].start, voices[i].frames + fs)] else voices
  }

  /** One block of decoded data mixed in, as far as there is room. */
  function Save(s: State, d: int, fs: seq<Frame>): State
    requires |s.cells| > 0 && At(s.pos, d) <= Fastest(s) <= s.rd + |s.cells| - 2
  {
    var n := Room(s, d, |fs|);
    s.(cells := Saved(s, d, fs), pos := s.pos[d := At(s.pos, d) + n],
       played := Played(s.played, At(s.voiceOf, d), fs[..n]), voices := Played(s.voices, At(s.voiceOf, d), fs[..n]))
  }

  /**
   Where audio_decoder_start puts a decoder: behind the fastest, but not closer to the readers than the
   reserve, which is silenced.
   */
  function Joined(s: State, d: int, reserve: nat): State
    requires |s.cells| > 0
  {
    var f := Fastest(s);
    var p := if f - s.rd < reserve then s.rd + reserve else f;
    s.(cells := Copied(s.cells, Slot(f, |s.cells|), Silent(if p > f then p - f else 0)),
       started := s.started + [d], pos := s.pos[d := p],
       played := s.played + [Voice(p, [])], voices := s.voices + [Voice(p, [])], voiceOf := s.voiceOf[d := |s.voices|])
  }

  /** audio_decoder_start */
  function Start(s: State, d: int, reserve: nat): State
    requires |s.cells| > 0
  {
    UpdateWr(Joined(s, d, reserve))
  }

  function Drop(ds: seq<int>, d: int): (r: seq<int>)
    ensures forall x :: x in r <==> x in ds && x != d
  {
    if ds == [] then [] else if ds[0] == d then Drop(ds[1..], d) else [ds[0]] + Drop(ds[1..], d)
  }

  /**
   audio_decoder_stop: what was played ahead of the decoders that are left will be overwritten, so the
   voices end there.
   */
  function Stop(s: State, d: int): State {
    var u := UpdateWr(s.(started := Drop(s.started, d)));
    u.(voices := CutAll(u.voices, Fastest(u)))
  }

  /** The frames output o gets next. */
  function Next(s: State, o: int, n: nat): (r: seq<Frame>)
    requires |s.cells| > 0
    ensures |r| == n
  {
    seq(n, i => s.cells[Slot(At(s.out, o) + i, |s.cells|)])
  }

  function Read(s: State, o: int, n: nat): State {
    UpdateRd(s.(out := s.out[o := At(s.out, o) + n]))
  }

  // ---------------------------------------------------------------- invariant

  ghost predicate Cursors(s: State) {
    && 2 <= |s.cells| && s.rd <= s.wr <= s.rd + |s.cells| - 2
    && (forall d :: d in s.started ==> d in s.pos && s.wr <= At(s.pos, d) <= s.rd + |s.cells| - 2)
    && (forall o :: o in s.outputs ==> o in s.out && s.rd <= At(s.out, o) <= s.wr)
  }

  /** The global cursors are the minima. */
  ghost predicate WrIsLeast(s: State) {
    s.started != [] ==> s.wr == Least(s.started, s.pos)
  }

  ghost predicate RdIsLeast(s: State) {
    s.outputs != [] ==> s.rd == Least(s.outputs, s.out)
  }

  /** Every started decoder has its own voice, which ends where the decoder will write next. */
  ghost predicate VoicesOk(started: seq<int>, pos: map<int, int>, voices: seq<Voice>, voiceOf: map<int, int>,
                           fastest: int) {
    && (forall d :: d in started ==> 0 <= At(voiceOf, d) < |voices| && voices[At(voiceOf, d)].End() == At(pos, d))
    && (forall d, e :: d in started && e in started && d != e ==> At(voiceOf, d) != At(voiceOf, e))
    && (forall i :: 0 <= i < |voices| ==> voices[i].End() <= fastest)
  }

  ghost predicate Holds(cells: seq<Frame>, voices: seq<Voice>, p: int) {
    |cells| > 0 && cells[Slot(p, |cells|)] == Clip(Mixed(voices, p))
  }

  /** Every cell between the readers and the fastest writer holds the 16-bit sum of what was played there. */
  ghost predicate Content(rd: int, fastest: int, cells: seq<Frame>, voices: seq<Voice>) {
    forall p :: rd <= p < fastest ==> Holds(cells, voices, p)
  }

  ghost predicate Core(s: State) {
    Cursors(s) && VoicesOk(s.started, s.pos, s.voices, s.voiceOf, Fastest(s))
      && Content(s.rd, Fastest(s), s.cells, s.voices)
  }

  /** The invariant of every reachable state. */
  ghost predicate Good(s: State) {
    Core(s) && WrIsLeast(s) && RdIsLeast(s)
  }

  // ---------------------------------------------------------------- it is kept

  lemma FurthestIs(ds: seq<int>, pos: map<int, int>, w: int, v: int)
    requires w <= v && (forall i :: 0 <= i < |ds| ==> At(pos, ds[i]) <= v)
    requires v == w || exists i :: 0 <= i < |ds| && v == At(pos, ds[i])
    ensures Furthest(ds, pos, w) == v
  {
  }

  lemma LeastIs(ds: seq<int>, pos: map<int, int>, v: int)
    requires ds != [] && (forall i :: 0 <= i < |ds| ==> v <= At(pos, ds[i]))
    requires exists i :: 0 <= i < |ds| && v == At(pos, ds[i])
    ensures Least(ds, pos) == v
  {
  }

  lemma FastestBounds(s: State)
    requires Cursors(s)
    ensures s.wr <= Fastest(s) <= s.rd + |s.cells| - 2
    ensures forall d :: d in s.started ==> At(s.pos, d) <= Fastest(s)
  {
    hide Least;
    forall i | 0 <= i < |s.started|
      ensures At(s.pos, s.started[i]) <= s.rd + |s.cells| - 2
    {
      assert s.started[i] in s.started;
    }
  }

  /** A decoder that moves on may become the fastest. */
  lemma FurthestMoved(ds: seq<int>, pos: map<int, int>, w: int, d: int, v: int)
    requires d in ds && At(pos, d) <= v
    ensures Furthest(ds, pos[d := v], w) == if v > Furthest(ds, pos, w) then v else Furthest(ds, pos, w)
  {
    var f := Furthest(ds, pos, w);
    var i :| 0 <= i < |ds| && ds[i] == d;
    assert forall k :: 0 <= k < |ds| ==> At(pos[d := v], ds[k]) == if ds[k] == d then v else At(pos, ds[k]);
    if v > f {
      FurthestIs(ds, pos[d := v], w, v);
    } else if f != w {
      var k :| 0 <= k < |ds| && f == At(pos, ds[k]);
      FurthestIs(ds, pos[d := v], w, f);
    } else {
      FurthestIs(ds, pos[d := v], w, f);
    }
  }

  lemma PlayedMixed(voices: seq<Voice>, i: int, fs: seq<Frame>, q: int)
    requires 0 <= i < |voices|
    ensures var p := voices[i].End();
            Mixed(Played(voices, i, fs), q) ==
              if p <= q < p + |fs| then Sum(Mixed(voices, q), fs[q - p]) else Mixed(voices, q)
  {
    hide Mixed;
    var v := Voice(voices[i].start, voices[i].frames + fs);
    MixedUpdate(voices, i, v, q);
    HeardLonger(voices[i], fs, q);
  }

  lemma HeardLonger(v: Voice, fs: seq<Frame>, q: int)
    ensures Heard(Voice(v.start, v.frames + fs), q) ==
      if v.End() <= q < v.End() + |fs| then fs[q - v.End()] else Heard(v, q)
    ensures v.End() <= q ==> Heard(v, q) == SILENCE
  {
  }

  /** One position after a save. */
  lemma SavedAt(s: State, d: int, fs: seq<Frame>, q: int)
    requires Core(s) && d in s.started && (forall i :: 0 <= i < |fs| ==> Fits(fs[i]))
    requires s.rd <= q < Fastest(Save(s, d, fs))
    requires At(s.pos, d) <= Fastest(s) <= s.rd + |s.cells| - 2
    requires Fastest(Save(s, d, fs)) <=
      if At(s.pos, d) + Room(s, d, |fs|) > Fastest(s) then At(s.pos, d) + Room(s, d, |fs|) else Fastest(s)
    ensures Holds(Save(s, d, fs).cells, Save(s, d, fs).voices, q)
  {
    hide Mixed, Clip, Sum, Slot, Added, Copied, Furthest, Cursors;
    var p, f, n, size := At(s.pos, d), Fastest(s), Room(s, d, |fs|), |s.cells|;
    var add := if n <= f - p then n else f - p;
    var once := Added(s.cells, Slot(p, size), fs[..add]);
    CursorsAt(s, d);
    AddedAt(s.cells, p, fs[..add], s.rd, q);
    CopiedAt(once, f, fs[add..n], s.rd, q);
    PlayedMixed(s.voices, At(s.voiceOf, d), fs[..n], q);
    if q < f {
      assert Holds(s.cells, s.voices, q);
      if p <= q < p + n {
        ClipSum(Mixed(s.voices, q), fs[q - p]);
      }
    } else {
      NothingBehind(s.voices, q);
      assert fs[..n][q - p] == fs[q - p] && fs[add..n][q - f] == fs[q - p];
      SilenceSum(fs[q - p]);
    }
  }

  lemma SilenceSum(f: Frame)
    ensures Sum(SILENCE, f) == f && Sum(f, SILENCE) == f
  {
  }

  lemma CursorsAt(s: State, d: int)
    requires Cursors(s) && d in s.started
    ensures s.rd <= s.wr <= At(s.pos, d) && 2 <= |s.cells| && d in s.pos
  {
  }

  lemma SaveCursors(s: State, d: int, fs: seq<Frame>)
    requires Cursors(s) && d in s.started
    ensures |s.cells| > 0 && At(s.pos, d) <= Fastest(s) <= s.rd + |s.cells| - 2
    ensures Cursors(Save(s, d, fs)) && (RdIsLeast(s) ==> RdIsLeast(Save(s, d, fs)))
    ensures Fastest(Save(s, d, fs)) ==
      (var e := At(s.pos, d) + Room(s, d, |fs|); if e > Fastest(s) then e else Fastest(s))
  {
    hide Furthest, Least, Saved;
    FastestBounds(s);
    FurthestMoved(s.started, s.pos, s.wr, d, At(s.pos, d) + Room(s, d, |fs|));
  }

  lemma SaveContent(s: State, d: int, fs: seq<Frame>)
    requires Core(s) && d in s.started && (forall i :: 0 <= i < |fs| ==> Fits(fs[i]))
    requires |s.cells| > 0 && At(s.pos, d) <= Fastest(s) <= s.rd + |s.cells| - 2
    requires Fastest(Save(s, d, fs)) <=
      if At(s.pos, d) + Room(s, d, |fs|) > Fastest(s) then At(s.pos, d) + Room(s, d, |fs|) else Fastest(s)
    ensures var u := Save(s, d, fs); Content(s.rd, Fastest(u), u.cells, u.voices)
  {
    hide Fastest, Room, Saved, Holds, Core, Fits, Played;
    var u := Save(s, d, fs);
    forall q | s.rd <= q < Fastest(u)
      ensures Holds(u.cells, u.voices, q)
    {
      SavedAt(s, d, fs, q);
    }
  }

  lemma SaveCore(s: State, d: int, fs: seq<Frame>)
    requires Core(s) && d in s.started && (forall i :: 0 <= i < |fs| ==> Fits(fs[i]))
    ensures |s.cells| > 0 && At(s.pos, d) <= Fastest(s) <= s.rd + |s.cells| - 2
    ensures Core(Save(s, d, fs)) && (RdIsLeast(s) ==> RdIsLeast(Save(s, d, fs)))
    ensures Fastest(Save(s, d, fs)) ==
      (var e := At(s.pos, d) + Room(s, d, |fs|); if e > Fastest(s) then e else Fastest(s))
  {
    hide Fastest, Saved, Content, VoicesOk, Cursors, Fits, Played;
    SaveCursors(s, d, fs);
    PlayedVoices(s, d, fs[..Room(s, d, |fs|)], Fastest(Save(s, d, fs)));
    SaveContent(s, d, fs);
  }

  lemma PlayedVoices(s: State, d: int, fs: seq<Frame>, fastest: int)
    requires VoicesOk(s.started, s.pos, s.voices, s.voiceOf, Fastest(s)) && d in s.started
    requires Fastest(s) <= fastest && At(s.pos, d) + |fs| <= fastest
    ensures VoicesOk(s.started, s.pos[d := At(s.pos, d) + |fs|], Played(s.voices, At(s.voiceOf, d), fs), s.voiceOf,
      fastest)
  {
    hide Furthest;
  }

  lemma LeastIn(ds: seq<int>, pos: map<int, int>, lo: int)
    requires ds != [] && forall d :: d in ds ==> lo <= At(pos, d)
    ensures lo <= Least(ds, pos) && (forall d :: d in ds ==> Least(ds, pos) <= At(pos, d))
  {
    forall d | d in ds
      ensures Least(ds, pos) <= At(pos, d)
    {
      var i :| 0 <= i < |ds| && ds[i] == d;
      assert Least(ds, pos) <= At(pos, ds[i]);
    }
  }

  /** Moving the global write cursor up to the least does not move the fastest. */
  lemma FastestSame(s: State)
    requires Cursors(s)
    ensures Fastest(UpdateWr(s)) == Fastest(s)
  {
    if s.started != [] {
      var f, w := Fastest(s), Least(s.started, s.pos);
      LeastIn(s.started, s.pos, s.wr);
      assert s.started[0] in s.started;
      if f == s.wr {
        assert At(s.pos, s.started[0]) == f;
      }
      FurthestIs(s.started, s.pos, w, f);
    }
  }

  lemma UpdateWrCore(s: State)
    requires Core(s)
    ensures Core(UpdateWr(s)) && WrIsLeast(UpdateWr(s)) && Fastest(UpdateWr(s)) == Fastest(s)
    ensures s.wr <= UpdateWr(s).wr
    ensures RdIsLeast(s) ==> RdIsLeast(UpdateWr(s))
  {
    hide Least, Furthest, VoicesOk, Content;
    FastestSame(s);
    FastestBounds(s);
    if s.started != [] {
      LeastIn(s.started, s.pos, s.wr);
      assert s.started[0] in s.started;
    }
  }

  lemma {:induction false} FurthestSame(ds: seq<int>, pos: map<int, int>, w: int, d: int, v: int)
    requires d !in ds
    ensures Furthest(ds, pos[d := v], w) == Furthest(ds, pos, w)
  {
    if ds != [] {
      FurthestSame(ds[..|ds| - 1], pos, w, d, v);
    }
  }

  lemma JoinedFastest(s: State, d: int, reserve: nat)
    requires Cursors(s) && d !in s.started && reserve + 2 <= |s.cells|
    ensures var f := Fastest(s);
            Fastest(Joined(s, d, reserve)) == if f - s.rd < reserve then s.rd + reserve else f
  {
    hide Copied, Cursors;
    var p := Joined(s, d, reserve).pos[d];
    FurthestSame(s.started, s.pos, s.wr, d, p);
    assert (s.started + [d])[..|s.started|] == s.started;
  }

  lemma JoinedAt(s: State, d: int, reserve: nat, q: int)
    requires Core(s) && d !in s.started && reserve + 2 <= |s.cells|
    requires s.rd <= q < Fastest(Joined(s, d, reserve))
    ensures Holds(Joined(s, d, reserve).cells, Joined(s, d, reserve).voices, q)
  {
    hide Mixed, Clip, Sum, Slot, Copied, Furthest;
    var f := Fastest(s);
    var u := Joined(s, d, reserve);
    var p := u.pos[d];
    JoinedFastest(s, d, reserve);
    FastestBounds(s);
    CopiedAt(s.cells, f, Silent(if p > f then p - f else 0), s.rd, q);
    MixedAppend(s.voices, Voice(p, []), q);
    SilenceSum(Mixed(s.voices, q));
    if q < f {
      assert Holds(s.cells, s.voices, q);
    } else {
      NothingBehind(s.voices, q);
      SilenceFits();
    }
  }

  lemma SilenceFits()
    ensures Clip(SILENCE) == SILENCE
  {
  }

  lemma JoinedCursors(s: State, d: int, reserve: nat)
    requires Cursors(s) && d !in s.started && reserve + 2 <= |s.cells|
    ensures Cursors(Joined(s, d, reserve))
  {
    hide Furthest;
    FastestBounds(s);
  }

  /** A new voice that is still silent. */
  lemma JoinedVoices(started: seq<int>, pos: map<int, int>, voices: seq<Voice>, voiceOf: map<int, int>, f: int, d: int,
                     p: int)
    requires VoicesOk(started, pos, voices, voiceOf, f) && d !in started && f <= p
    ensures VoicesOk(started + [d], pos[d := p], voices + [Voice(p, [])], voiceOf[d := |voices|], p)
  {
  }

  lemma StartGood(s: State, d: int, reserve: nat)
    requires Good(s) && d !in s.started && reserve + 2 <= |s.cells|
    ensures Good(Start(s, d, reserve))
  {
    hide Holds, Furthest, Least, VoicesOk, Cursors, Fastest;
    var u := Joined(s, d, reserve);
    JoinedCursors(s, d, reserve);
    JoinedFastest(s, d, reserve);
    JoinedVoices(s.started, s.pos, s.voices, s.voiceOf, Fastest(s), d, u.pos[d]);
    forall q | u.rd <= q < Fastest(u)
      ensures Holds(u.cells, u.voices, q)
    {
      JoinedAt(s, d, reserve, q);
    }
    UpdateWrCore(u);
  }

  lemma DropFastest(s: State, d: int)
    requires Cursors(s)
    ensures Cursors(s.(started := Drop(s.started, d))) && Fastest(s.(started := Drop(s.started, d))) <= Fastest(s)
  {
    hide Least;
    var u := s.(started := Drop(s.started, d));
    var f := Fastest(u);
    FastestBounds(s);
    if f != s.wr {
      var i :| 0 <= i < |u.started| && f == At(u.pos, u.started[i]);
      assert u.started[i] in s.started;
    }
  }

  lemma CutVoices(s: State, d: int, f: int)
    requires VoicesOk(s.started, s.pos, s.voices, s.voiceOf, Fastest(s)) && f <= Fastest(s)
    requires forall e :: e in Drop(s.started, d) ==> At(s.pos, e) <= f
    ensures VoicesOk(Drop(s.started, d), s.pos, CutAll(s.voices, f), s.voiceOf, f)
  {
    hide Furthest, Drop;
  }

  lemma CutContent(rd: int, f: int, g: int, cells: seq<Frame>, voices: seq<Voice>)
    requires Content(rd, g, cells, voices) && f <= g
    ensures Content(rd, f, cells, CutAll(voices, f))
  {
    hide Mixed, Cut, Slot, Clip;
    forall q | rd <= q < f
      ensures Holds(cells, CutAll(voices, f), q)
    {
      assert Holds(cells, voices, q);
      CutMixed(voices, f, q);
    }
  }

  /** Stopping keeps the content up to the fastest decoder that is left. */
  lemma StopGood(s: State, d: int)
    requires Core(s) && RdIsLeast(s)
    ensures Good(Stop(s, d)) && Fastest(Stop(s, d)) <= Fastest(s)
  {
    hide Fastest, Least, Mixed, Drop, CutAll, Content, VoicesOk, Cursors;
    var t := s.(started := Drop(s.started, d));
    DropFastest(s, d);
    FastestSame(t);
    FastestBounds(t);
    CutVoices(s, d, Fastest(UpdateWr(t)));
    StopCursors(t);
    CutContent(s.rd, Fastest(UpdateWr(t)), Fastest(s), s.cells, s.voices);
    OtherVoices(UpdateWr(t), CutAll(s.voices, Fastest(UpdateWr(t))));
  }

  lemma OtherVoices(s: State, voices: seq<Voice>)
    ensures Fastest(s.(voices := voices)) == Fastest(s)
    ensures Cursors(s) ==> Cursors(s.(voices := voices))
  {
  }

  lemma StopCursors(s: State)
    requires Cursors(s)
    ensures Cursors(UpdateWr(s)) && WrIsLeast(UpdateWr(s))
  {
    hide Least, Furthest;
    if s.started != [] {
      LeastIn(s.started, s.pos, s.wr);
      assert s.started[0] in s.started;
    }
  }

  // ---------------------------------------------------------------- readers

  /** audio_decoder_output_add */
  function AddOutput(s: State, o: int): State {
    s.(outputs := s.outputs + [o], out := s.out[o := s.rd])
  }

  /** audio_decoder_output_remove, while another output is left */
  function RemoveOutput(s: State, o: int): State {
    UpdateRd(s.(outputs := Drop(s.outputs, o)))
  }

  /** The read cursor only moves up, and stays behind every output. */
  lemma UpdateRdGood(s: State)
    requires Core(s) && WrIsLeast(s)
    ensures Good(UpdateRd(s)) && s.rd <= UpdateRd(s).rd
  {
    hide Furthest, Least, VoicesOk, Holds;
    if s.outputs != [] {
      LeastIn(s.outputs, s.out, s.rd);
      assert s.outputs[0] in s.outputs;
      var u := UpdateRd(s);
      assert Fastest(u) == Fastest(s);
      assert Content(u.rd, Fastest(u), u.cells, u.voices);
    }
  }

  lemma ReadGood(s: State, o: int, n: nat)
    requires Good(s) && o in s.outputs && At(s.out, o) + n <= s.wr
    ensures Good(Read(s, o, n))
  {
    hide Furthest, Least, VoicesOk, Content;
    var u := s.(out := s.out[o := At(s.out, o) + n]);
    assert Fastest(u) == Fastest(s);
    UpdateRdGood(u);
  }

  lemma LeastAdded(ds: seq<int>, pos: map<int, int>, d: int, lo: int)
    requires forall x :: x in ds ==> lo <= At(pos, x)
    ensures Least(ds + [d], pos[d := lo]) == lo
  {
    var all := ds + [d];
    assert all[|ds|] == d;
    forall i | 0 <= i < |all|
      ensures lo <= At(pos[d := lo], all[i])
    {
      assert i < |ds| ==> all[i] in ds;
    }
    LeastIs(all, pos[d := lo], lo);
  }

  lemma AddOutputGood(s: State, o: int)
    requires Good(s) && o !in s.outputs
    ensures Good(AddOutput(s, o))
  {
    hide Furthest, Least, VoicesOk, Content;
    assert Fastest(AddOutput(s, o)) == Fastest(s);
    LeastAdded(s.outputs, s.out, o, s.rd);
  }

  lemma RemoveOutputGood(s: State, o: int)
    requires Good(s) && Drop(s.outputs, o) != []
    ensures Good(RemoveOutput(s, o))
  {
    hide Furthest, Least, VoicesOk, Content, Drop;
    var u := s.(outputs := Drop(s.outputs, o));
    assert Fastest(u) == Fastest(s);
    UpdateRdGood(u);
  }

  // ---------------------------------------------------------------- writers

  ghost predicate AllFit(fs: seq<Frame>) {
    forall i :: 0 <= i < |fs| ==> Fits(fs[i])
  }

  ghost predicate BlocksFit(blocks: seq<seq<Frame>>) {
    forall i :: 0 <= i < |blocks| ==> AllFit(blocks[i])
  }

  lemma MixStep(s: State, d: int, blocks: seq<seq<Frame>>)
    requires Core(s) && d in s.started && BlocksFit(blocks) && blocks != []
    ensures |s.cells| > 0 && At(s.pos, d) <= Fastest(s) <= s.rd + |s.cells| - 2
    ensures Core(Save(s, d, blocks[0])) && BlocksFit(blocks[1..])
    ensures var n := Room(s, d, |blocks[0]|); n < |blocks[0]| ==> BlocksFit([blocks[0][n..]] + blocks[1..])
    ensures RdIsLeast(s) ==> RdIsLeast(Save(s, d, blocks[0]))
  {
    hide Core, Fastest, Saved, Least;
    assert AllFit(blocks[0]);
    SaveCore(s, d, blocks[0]);
  }

  /** The loop of mix_decoded_data over a decoder's waiting blocks: the new state and what is left waiting. */
  ghost function MixBlocks(s: State, d: int, blocks: seq<seq<Frame>>): (r: (State, seq<seq<Frame>>))
    requires Core(s) && d in s.started && BlocksFit(blocks)
    ensures Core(r.0) && r.0.started == s.started && BlocksFit(r.1)
    decreases |blocks|
  {
    hide Core, Fastest, Saved, Least, BlocksFit, Room;
    if blocks == [] then (s, blocks)
    else
      MixStep(s, d, blocks);
      var n := Room(s, d, |blocks[0]|);
      var u := Save(s, d, blocks[0]);
      if n == |blocks[0]| then MixBlocks(u, d, blocks[1..]) else (u, [blocks[0][n..]] + blocks[1..])
  }

  lemma MixUnroll(s: State, d: int, blocks: seq<seq<Frame>>)
    requires Core(s) && d in s.started && BlocksFit(blocks) && blocks != []
    ensures AllFit(blocks[0]) && |s.cells| > 0 && At(s.pos, d) <= Fastest(s) <= s.rd + |s.cells| - 2
    ensures Core(Save(s, d, blocks[0])) && BlocksFit(blocks[1..])
    ensures var n := Room(s, d, |blocks[0]|);
            MixBlocks(s, d, blocks) == if n == |blocks[0]| then MixBlocks(Save(s, d, blocks[0]), d, blocks[1..])
                                       else (Save(s, d, blocks[0]), [blocks[0][n..]] + blocks[1..])
  {
    hide Core, Fastest, Saved, Least, Room;
    MixStep(s, d, blocks);
  }

  /** mix_decoded_data; at the end of the input, a decoder with nothing left waiting is stopped. */
  ghost function Mix(s: State, d: int, blocks: seq<seq<Frame>>, inputOver: bool): State
    requires Core(s) && d in s.started && BlocksFit(blocks)
  {
    if blocks == [] then s
    else
      var (u, left) := MixBlocks(s, d, blocks);
      UpdateWr(if inputOver && left == [] then Stop(u, d) else u)
  }

  lemma {:induction false} MixBlocksRd(s: State, d: int, blocks: seq<seq<Frame>>)
    requires Core(s) && d in s.started && BlocksFit(blocks)
    ensures var u := MixBlocks(s, d, blocks).0;
      (RdIsLeast(s) ==> RdIsLeast(u)) && u.rd == s.rd && u.wr == s.wr && u.outputs == s.outputs && u.out == s.out
    decreases |blocks|
  {
    hide Core, Least, Saved, Room;
    if blocks != [] {
      assert AllFit(blocks[0]);
      SaveCore(s, d, blocks[0]);
      var u := Save(s, d, blocks[0]);
      if Room(s, d, |blocks[0]|) == |blocks[0]| {
        MixBlocksRd(u, d, blocks[1..]);
      }
    }
  }

  lemma MixGood(s: State, d: int, blocks: seq<seq<Frame>>, inputOver: bool)
    requires Good(s) && d in s.started && BlocksFit(blocks)
    ensures Good(Mix(s, d, blocks, inputOver))
  {
    hide Core, Least, MixBlocks, Stop;
    if blocks != [] {
      MixBlocksRd(s, d, blocks);
      var (u, left) := MixBlocks(s, d, blocks);
      UpdateWrCore(u);
      StopGood(u, d);
      if inputOver && left == [] {
        UpdateWrCore(Stop(u, d));
      }
    }
  }

  // ---------------------------------------------------------------- what stops take back

  /** All there is of a voice up to its end, and nothing behind it. */
  ghost predicate Trails(v: Voice, whole: Voice) {
    v.End() <= whole.End() && forall p :: p < v.End() ==> Heard(v, p) == Heard(whole, p)
  }

  /** Every voice is a leading part of what was played; the voices of started decoders are all of it. */
  ghost predicate Recorded(s: State) {
    && |s.voices| == |s.played|
    && (forall d :: d in s.started
         ==> 0 <= At(s.voiceOf, d) < |s.voices| && s.voices[At(s.voiceOf, d)] == s.played[At(s.voiceOf, d)])
    && (forall i :: 0 <= i < |s.voices| ==> Trails(s.voices[i], s.played[i]))
  }

  /** Nothing has been taken back. */
  ghost predicate Whole(s: State) { s.voices == s.played }

  /** The decoder to be stopped is ahead of the write cursor and of every other decoder. */
  predicate StopLoses(s: State, d: int) {
    At(s.pos, d) != s.wr && forall e :: e in s.started && e != d ==> At(s.pos, e) < At(s.pos, d)
  }

  /** Frames waiting to be mixed. */
  function Total(blocks: seq<seq<Frame>>): nat {
    if blocks == [] then 0 else |blocks[0]| + Total(blocks[1..])
  }

  /** The waiting frames all fit, and the decoder then is ahead of the write cursor and of every other decoder. */
  predicate LastMixLoses(s: State, d: int, blocks: seq<seq<Frame>>) {
    var e := At(s.pos, d) + Total(blocks);
    && blocks != [] && e <= s.rd + |s.cells| - 2
    && e != s.wr && forall x :: x in s.started && x != d ==> At(s.pos, x) < e
  }

  lemma CutNothing(voices: seq<Voice>, f: int)
    requires forall i :: 0 <= i < |voices| ==> voices[i].End() <= f
    ensures CutAll(voices, f) == voices
  {
  }

  /** A stop takes frames back if and only if the decoder is ahead of the write cursor and of every other one. */
  lemma StopKeepsVoices(s: State, d: int)
    requires Core(s) && d in s.started
    ensures Stop(s, d).voices == s.voices <==> !StopLoses(s, d)
  {
    hide Furthest, Least, Mixed, Content, Drop;
    var t := s.(started := Drop(s.started, d));
    var f, p := Fastest(t), At(s.pos, d);
    DropFastest(s, d);
    FastestSame(t);
    FastestBounds(s);
    FastestBounds(t);
    if StopLoses(s, d) {
      assert f < p;
      assert s.voices[At(s.voiceOf, d)].End() == p;
      assert Stop(s, d).voices[At(s.voiceOf, d)].End() <= f;
    } else {
      if p != s.wr {
        var e :| e in s.started && e != d && At(s.pos, e) >= p;
        assert e in t.started;
      }
      DropNotFastest(s, d);
      CutNothing(s.voices, f);
    }
  }

  lemma DropNotFastest(s: State, d: int)
    requires Cursors(s) && At(s.pos, d) <= Fastest(s.(started := Drop(s.started, d)))
    ensures Fastest(s) <= Fastest(s.(started := Drop(s.started, d)))
  {
    hide Drop;
    var t := s.(started := Drop(s.started, d));
    var f := Fastest(s);
    FastestBounds(t);
    if f != s.wr {
      var i :| 0 <= i < |s.started| && f == At(s.pos, s.started[i]);
      assert s.started[i] == d || s.started[i] in t.started;
    }
  }

  /** What one call of mix_decoded_data moves: everything waiting goes in exactly if it fits. */
  lemma {:induction false} MixBlocksEnds(s: State, d: int, blocks: seq<seq<Frame>>)
    requires Core(s) && d in s.started && BlocksFit(blocks)
    ensures var (u, left) := MixBlocks(s, d, blocks);
            && (left == [] <==> At(s.pos, d) + Total(blocks) <= s.rd + |s.cells| - 2)
            && (left == [] ==> At(u.pos, d) == At(s.pos, d) + Total(blocks))
            && (forall e :: e != d ==> At(u.pos, e) == At(s.pos, e))
            && u.wr == s.wr && u.rd == s.rd && u.voiceOf == s.voiceOf && |u.cells| == |s.cells|
            && (Whole(s) ==> Whole(u)) && Grown(s.voices, u.voices, At(s.voiceOf, d))
    decreases |blocks|
  {
    hide Core, Fastest, Saved, Least, BlocksFit, Room;
    CoreInTurn(s, d);
    if blocks != [] {
      MixStep(s, d, blocks);
      RoomExactly(s, d, |blocks[0]|);
      var n := Room(s, d, |blocks[0]|);
      var u := Save(s, d, blocks[0]);
      if n == |blocks[0]| {
        MixBlocksEnds(u, d, blocks[1..]);
      }
    }
  }

  /** Only voice i has grown. */
  ghost predicate Grown(a: seq<Voice>, b: seq<Voice>, i: int) {
    && |a| == |b|
    && (forall j :: 0 <= j < |a| && j != i ==> a[j] == b[j])
    && (0 <= i < |a| ==> a[i].start == b[i].start && a[i].frames <= b[i].frames)
  }

  lemma CoreInTurn(s: State, d: int)
    requires Core(s) && d in s.started
    ensures At(s.pos, d) <= Fastest(s) <= s.rd + |s.cells| - 2
  {
    hide Furthest, VoicesOk, Content;
    FastestBounds(s);
  }

  lemma RoomExactly(s: State, d: int, len: nat)
    requires At(s.pos, d) <= Fastest(s) <= s.rd + |s.cells| - 2
    ensures Room(s, d, len) == len <==> At(s.pos, d) + len <= s.rd + |s.cells| - 2
  {
  }

  /**
   The last call for a decoder at the end of its input takes frames back under the same condition, seen
   before the call.
   */
  lemma LastMixKeepsVoices(s: State, d: int, blocks: seq<seq<Frame>>)
    requires Core(s) && d in s.started && BlocksFit(blocks)
    ensures Mix(s, d, blocks, true).voices == MixBlocks(s, d, blocks).0.voices <==> !LastMixLoses(s, d, blocks)
  {
    hide Core, Fastest, BlocksFit, MixBlocks, Total, Least;
    var (u, left) := MixBlocks(s, d, blocks);
    MixBlocksEnds(s, d, blocks);
    if blocks == [] {
      MixNone(s, d);
    } else if left == [] {
      StopKeepsVoices(u, d);
    }
  }

  lemma MixNone(s: State, d: int)
    requires Core(s) && d in s.started
    ensures MixBlocks(s, d, []) == (s, [])
  {
  }

  /**
   A decoder that is alone when its input ends loses its whole last call: the write cursor does not
   move, and nothing of the call is left in the ring.
   */
  lemma LoneDecoderLosesLastCall(s: State, d: int, blocks: seq<seq<Frame>>)
    requires Good(s) && s.started == [d] && BlocksFit(blocks) && At(s.pos, d) + Total(blocks) <= s.rd + |s.cells| - 2
    ensures var u := Mix(s, d, blocks, true); u.wr == s.wr && u.voices == s.voices
  {
    hide BlocksFit, MixBlocks, Total, Mixed, Content;
    assert [d][..0] == [];
    if blocks != [] {
      var (u, left) := MixBlocks(s, d, blocks);
      MixBlocksEnds(s, d, blocks);
      assert Drop(u.started, d) == [];
      assert Fastest(s) == s.wr;
      var i := At(s.voiceOf, d);
      forall j | 0 <= j < |s.voices|
        ensures Cut(u.voices[j], s.wr) == s.voices[j]
      {
        if j == i {
          assert u.voices[i].frames[..|s.voices[i].frames|] == s.voices[i].frames;
        }
      }
      assert Mix(s, d, blocks, true).voices == s.voices;
    }
  }

  /** That happens to a decoder started on a new ring of ten cells, two of them the reserve. */
  lemma LastFrameLost(cells: seq<Frame>, f: Frame)
    requires Fits(f) && |cells| == 10 && ReserveSilent(cells, 2)
    ensures var s := Start(AddOutput(Fresh(cells, 2), 9), 7, 2);
            && Good(s) && s.started == [7] && BlocksFit([[f]])
            && (var u := Mix(s, 7, [[f]], true);
                 u.played == [Voice(10, [f])] && u.voices == [Voice(10, [])] && u.wr == s.wr)
  {
    hide BlocksFit, MixBlocks, Mixed, Core, WrIsLeast, RdIsLeast, Start, AddOutput, Fresh, Saved, Room;
    hide Furthest, Least, Fits, AllFit, ReserveSilent;
    LoneStart(cells);
    FreshGood(cells, 2);
    AddOutputGood(Fresh(cells, 2), 9);
    var s := Start(AddOutput(Fresh(cells, 2), 9), 7, 2);
    StartGood(AddOutput(Fresh(cells, 2), 9), 7, 2);
    OneBlock(f);
    LoneDecoderLosesLastCall(s, 7, [[f]]);
    MixStep(s, 7, [[f]]);
    RoomExactly(s, 7, 1);
    assert [f][..1] == [f];
    MixNone(Save(s, 7, [f]), 7);
    MixOne(s, 7, [f]);
  }

  lemma OneBlock(f: Frame)
    requires Fits(f)
    ensures BlocksFit([[f]]) && Total([[f]]) == 1
  {
    assert AllFit([f]) && [[f]][1..] == [];
  }

  /** One waiting block that fits. */
  lemma MixOne(s: State, d: int, fs: seq<Frame>)
    requires Core(s) && d in s.started && BlocksFit([fs])
    requires At(s.pos, d) <= Fastest(s) <= s.rd + |s.cells| - 2 && |s.cells| > 0 && Room(s, d, |fs|) == |fs|
    ensures Core(Save(s, d, fs)) && MixBlocks(s, d, [fs]) == MixBlocks(Save(s, d, fs), d, [])
  {
    hide Core, Fastest, Saved, Room;
    MixStep(s, d, [fs]);
    assert [fs][1..] == [];
  }

  lemma LoneStart(cells: seq<Frame>)
    requires |cells| == 10
    ensures var r := AddOutput(Fresh(cells, 2), 9);
            7 !in r.started && |r.cells| == 10 && 9 !in Fresh(cells, 2).outputs
    ensures var s := Start(AddOutput(Fresh(cells, 2), 9), 7, 2);
            && s.started == [7] && At(s.pos, 7) == 10 == s.wr && s.rd == 8 && |s.cells| == 10
            && s.played == [Voice(10, [])] == s.voices && At(s.voiceOf, 7) == 0
  {
    hide Copied;
    assert [7][..0] == [];
  }

  // ---------------------------------------------------------------- runs

  datatype Op =
    | OpStart(decoder: int)
    | OpStop(decoder: int)
    | OpMix(decoder: int, blocks: seq<seq<Frame>>, inputOver: bool)  // any decoded data
    | OpRead(output: int, frames: nat)
    | OpAddOutput(output: int)
    | OpRemoveOutput(output: int)

  ghost predicate Enabled(s: State, reserve: nat, op: Op) {
    match op
    case OpStart(d) => d !in s.started && reserve + 2 <= |s.cells|
    case OpStop(_) => true
    case OpMix(d, blocks, _) => d in s.started && BlocksFit(blocks)
    case OpRead(o, n) => o in s.outputs && At(s.out, o) + n <= s.wr
    case OpAddOutput(o) => o !in s.outputs
    case OpRemoveOutput(o) => Drop(s.outputs, o) != []
  }

  ghost function Apply(s: State, reserve: nat, op: Op): State
    requires Good(s) && Enabled(s, reserve, op)
  {
    match op
    case OpStart(d) => Start(s, d, reserve)
    case OpStop(d) => if d in s.started then Stop(s, d) else s
    case OpMix(d, blocks, inputOver) => Mix(s, d, blocks, inputOver)
    case OpRead(o, n) => Read(s, o, n)
    case OpAddOutput(o) => AddOutput(s, o)
    case OpRemoveOutput(o) => RemoveOutput(s, o)
  }

  lemma StepGood(s: State, reserve: nat, op: Op)
    requires Good(s) && Enabled(s, reserve, op)
    ensures Good(Apply(s, reserve, op))
  {
    hide Core, WrIsLeast, Start, Stop, Mix, Read, AddOutput, RemoveOutput, Drop;
    match op
    case OpStart(d) => StartGood(s, d, reserve);
    case OpStop(d) =>
      if d in s.started {
        StopGood(s, d);
      }
    case OpMix(d, blocks, inputOver) => MixGood(s, d, blocks, inputOver);
    case OpRead(o, n) => ReadGood(s, o, n);
    case OpAddOutput(o) => AddOutputGood(s, o);
    case OpRemoveOutput(o) => RemoveOutputGood(s, o);
  }

  ghost predicate Follows(s: State, reserve: nat, op: Op, u: State) {
    Good(s) ==> Enabled(s, reserve, op) && u == Apply(s, reserve, op)
  }

  ghost predicate Run(states: seq<State>, reserve: nat, ops: seq<Op>) {
    && |states| == |ops| + 1 && Good(states[0])
    && (forall k :: 0 <= k < |ops| ==> Follows(states[k], reserve, ops[k], states[k + 1]))
  }

  lemma {:induction false} RunGood(states: seq<State>, reserve: nat, ops: seq<Op>, k: nat)
    requires Run(states, reserve, ops) && k <= |ops|
    ensures Good(states[k])
    ensures k < |ops| ==> Enabled(states[k], reserve, ops[k]) && states[k + 1] == Apply(states[k], reserve, ops[k])
  {
    hide Good, Enabled, Apply;
    if k > 0 {
      RunGood(states, reserve, ops, k - 1);
      StepGood(states[k - 1], reserve, ops[k - 1]);
    }
    assert k < |ops| ==> Follows(states[k], reserve, ops[k], states[k + 1]);
  }

  /**
   audio_decoder_init: no decoders and no outputs, the readers the reserve behind the writers, which begin
   at the first cell. What is in the cells before the reserve does not matter.
   */
  function Fresh(cells: seq<Frame>, reserve: nat): State {
    State(|cells| - reserve, |cells|, [], map[], [], map[], cells, [], [], map[])
  }

  ghost predicate ReserveSilent(cells: seq<Frame>, reserve: nat) {
    reserve <= |cells| && forall p :: |cells| - reserve <= p < |cells| ==> cells[p] == SILENCE
  }

  /** It starts a run. */
  lemma FreshGood(cells: seq<Frame>, reserve: nat)
    requires reserve + 2 <= |cells| && ReserveSilent(cells, reserve)
    ensures Good(Fresh(cells, reserve)) && Recorded(Fresh(cells, reserve)) && Whole(Fresh(cells, reserve))
  {
    var s := Fresh(cells, reserve);
    forall p | s.rd <= p < s.wr
      ensures Holds(cells, [], p)
    {
      SlotInFirst(p, |cells|);
      SilenceFits();
    }
  }

  lemma SlotInFirst(p: int, n: int)
    requires 0 <= p < n
    ensures Slot(p, n) == p
  {
    ModUnique(p, n, 0, p);
  }

  /**
   What a listener gets, in every reachable state of every run: the frames an output reads are the 16-bit
   sums of the voices at those positions, each voice being what its decoder played less what stops have
   taken back (VoicesTrail says how much that is).
   */
  lemma ListenersHearTheVoices(states: seq<State>, reserve: nat, ops: seq<Op>, k: nat, o: int, i: nat)
    requires Run(states, reserve, ops) && k <= |ops|
    requires var s := states[k]; o in s.outputs && At(s.out, o) + i < s.wr
    ensures var s := states[k]; |s.cells| > 0 && Next(s, o, i + 1)[i] == Clip(Mixed(s.voices, At(s.out, o) + i))
  {
    hide Follows, Mixed, Clip, Slot, Furthest, Least;
    RunGood(states, reserve, ops, k);
    var s := states[k];
    FastestBounds(s);
    assert Holds(s.cells, s.voices, At(s.out, o) + i);
  }

  /** The step takes frames back that a decoder has played. */
  ghost predicate Loses(s: State, op: Op) {
    match op
    case OpStop(d) => d in s.started && StopLoses(s, d)
    case OpMix(d, blocks, inputOver) => inputOver && LastMixLoses(s, d, blocks)
    case _ => false
  }

  /** From a state in which nothing is missing, a step leaves something missing if and only if it loses. */
  lemma StepWhole(s: State, reserve: nat, op: Op)
    requires Good(s) && Enabled(s, reserve, op) && Whole(s)
    ensures Whole(Apply(s, reserve, op)) <==> !Loses(s, op)
  {
    hide Furthest, Least, Content, VoicesOk, Cursors, RdIsLeast, WrIsLeast, BlocksFit, MixBlocks, Copied, StopLoses,
         LastMixLoses, Drop;
    match op
    case OpStop(d) =>
      if d in s.started {
        StopKeepsVoices(s, d);
      }
    case OpMix(d, blocks, inputOver) =>
      MixBlocksEnds(s, d, blocks);
      LastMixKeepsVoices(s, d, blocks);
      MixPlayed(s, d, blocks, inputOver);
    case _ =>
  }

  lemma MixPlayed(s: State, d: int, blocks: seq<seq<Frame>>, inputOver: bool)
    requires Core(s) && d in s.started && BlocksFit(blocks)
    ensures var m, u := Mix(s, d, blocks, inputOver), MixBlocks(s, d, blocks).0;
      m.played == u.played && (!inputOver ==> m.voices == u.voices)
  {
    hide Core, Furthest, Least, BlocksFit, MixBlocks, Drop;
    if blocks == [] {
      MixNone(s, d);
    }
  }

  lemma {:induction false} WholeAlong(states: seq<State>, reserve: nat, ops: seq<Op>, k: nat)
    requires Run(states, reserve, ops) && k <= |ops| && Whole(states[0])
    requires forall j :: 0 <= j < k ==> !Loses(states[j], ops[j])
    ensures Whole(states[k])
  {
    hide Good, Enabled, Apply, Whole, Loses;
    if k > 0 {
      WholeAlong(states, reserve, ops, k - 1);
      RunGood(states, reserve, ops, k - 1);
      StepWhole(states[k - 1], reserve, ops[k - 1]);
    }
  }

  /**
   In a run without a step that loses, a listener gets the 16-bit sums of all that the decoders played,
   position by position, nothing left out.
   */
  lemma ListenersHearTheMix(states: seq<State>, reserve: nat, ops: seq<Op>, k: nat, o: int, i: nat)
    requires Run(states, reserve, ops) && k <= |ops| && Whole(states[0])
    requires forall j :: 0 <= j < k ==> !Loses(states[j], ops[j])
    requires var s := states[k]; o in s.outputs && At(s.out, o) + i < s.wr
    ensures var s := states[k]; |s.cells| > 0 && Next(s, o, i + 1)[i] == Clip(Mixed(s.played, At(s.out, o) + i))
  {
    hide Run, Mixed, Loses, Next;
    WholeAlong(states, reserve, ops, k);
    ListenersHearTheVoices(states, reserve, ops, k, o, i);
  }

  /**
   Stops take back ends only: in every reachable state a voice is what its decoder played up to some
   position and silence from there on, and the voice of a started decoder is complete.
   */
  lemma {:induction false} VoicesTrail(states: seq<State>, reserve: nat, ops: seq<Op>, k: nat)
    requires Run(states, reserve, ops) && k <= |ops| && Recorded(states[0])
    ensures Recorded(states[k])
  {
    hide Good, Enabled, Apply, Recorded;
    if k > 0 {
      VoicesTrail(states, reserve, ops, k - 1);
      RunGood(states, reserve, ops, k - 1);
      StepRecorded(states[k - 1], reserve, ops[k - 1]);
    }
  }

  lemma CutTrails(v: Voice, whole: Voice, f: int)
    requires Trails(v, whole)
    ensures Trails(Cut(v, f), whole)
  {
  }

  /** Cutting every voice at f leaves those that end by f as they are. */
  lemma CutRecorded(s: State, u: State, f: int)
    requires Recorded(s) && u.voices == CutAll(s.voices, f) && u.played == s.played && u.voiceOf == s.voiceOf
    requires forall e :: e in u.started ==> e in s.started
    requires forall e :: e in u.started ==> s.voices[At(s.voiceOf, e)].End() <= f
    ensures Recorded(u)
  {
    hide Trails;
    forall i | 0 <= i < |s.voices|
      ensures Trails(u.voices[i], u.played[i])
    {
      CutTrails(s.voices[i], s.played[i], f);
    }
  }

  lemma StopRecorded(s: State, d: int)
    requires Core(s) && Recorded(s)
    ensures Recorded(Stop(s, d))
  {
    hide Furthest, Least, Content, Drop, CutAll, Recorded, Cursors, Fastest;
    var t := s.(started := Drop(s.started, d));
    DropFastest(s, d);
    FastestSame(t);
    FastestBounds(t);
    CutRecorded(s, Stop(s, d), Fastest(t));
  }

  lemma SaveRecorded(s: State, d: int, fs: seq<Frame>)
    requires Core(s) && Recorded(s) && d in s.started
    requires |s.cells| > 0 && At(s.pos, d) <= Fastest(s) <= s.rd + |s.cells| - 2
    ensures Recorded(Save(s, d, fs))
  {
    hide Furthest, Content, Saved, Room, Cursors;
  }

  lemma {:induction false} MixBlocksRecorded(s: State, d: int, blocks: seq<seq<Frame>>)
    requires Core(s) && Recorded(s) && d in s.started && BlocksFit(blocks)
    ensures Recorded(MixBlocks(s, d, blocks).0)
    decreases |blocks|
  {
    hide Core, Fastest, Saved, BlocksFit, Room, Recorded;
    if blocks != [] {
      MixStep(s, d, blocks);
      SaveRecorded(s, d, blocks[0]);
      if Room(s, d, |blocks[0]|) == |blocks[0]| {
        MixBlocksRecorded(Save(s, d, blocks[0]), d, blocks[1..]);
      }
    }
  }

  lemma SameRecord(s: State, u: State)
    requires Recorded(s) && u.started == s.started && u.voices == s.voices && u.played == s.played
    requires u.voiceOf == s.voiceOf
    ensures Recorded(u)
  {
  }

  lemma JoinedRecorded(s: State, d: int, reserve: nat)
    requires Recorded(s) && |s.cells| > 0
    ensures Recorded(Joined(s, d, reserve))
  {
    hide Furthest, Copied;
  }

  lemma StepRecorded(s: State, reserve: nat, op: Op)
    requires Good(s) && Enabled(s, reserve, op) && Recorded(s)
    ensures Recorded(Apply(s, reserve, op))
  {
    hide Furthest, Least, Content, VoicesOk, RdIsLeast, WrIsLeast, BlocksFit, MixBlocks, Copied, Drop, Stop, Joined,
         Recorded;
    match op
    case OpStart(d) =>
      JoinedRecorded(s, d, reserve);
      SameRecord(Joined(s, d, reserve), Start(s, d, reserve));
    case OpStop(d) => StopRecorded(s, d);
    case OpMix(d, blocks, inputOver) =>
      MixBlocksRecorded(s, d, blocks);
      var (u, left) := MixBlocks(s, d, blocks);
      StopRecorded(u, d);
      SameRecord(u, UpdateWr(u));
      SameRecord(Stop(u, d), UpdateWr(Stop(u, d)));
    case _ => SameRecord(s, Apply(s, reserve, op));
  }

  /** Readers never pass writers: every read cursor, the write cursor and every writer, in this order, within a turn. */
  lemma CursorOrder(states: seq<State>, reserve: nat, ops: seq<Op>, k: nat, o: int, d: int)
    requires Run(states, reserve, ops) && k <= |ops| && o in states[k].outputs && d in states[k].started
    ensures var s := states[k]; s.rd <= At(s.out, o) <= s.wr <= At(s.pos, d) <= s.rd + |s.cells| - 2
  {
    hide Follows, Furthest, Least, Content, VoicesOk;
    RunGood(states, reserve, ops, k);
  }

  /** Mixing never overwrites a cell that some output has yet to read ... */
  lemma SaveKeepsUnread(s: State, d: int, fs: seq<Frame>, q: int)
    requires Core(s) && d in s.started && AllFit(fs) && s.rd <= q < s.wr
    ensures |s.cells| > 0 && At(s.pos, d) <= Fastest(s) <= s.rd + |s.cells| - 2
    ensures Save(s, d, fs).cells[Slot(q, |s.cells|)] == s.cells[Slot(q, |s.cells|)]
  {
    hide Furthest, Added, Copied, Slot, VoicesOk, Content;
    SaveCursors(s, d, fs);
    var p, f, n, size := At(s.pos, d), Fastest(s), Room(s, d, |fs|), |s.cells|;
    var add := if n <= f - p then n else f - p;
    AddedAt(s.cells, p, fs[..add], s.rd, q);
    CopiedAt(Added(s.cells, Slot(p, size), fs[..add]), f, fs[add..n], s.rd, q);
  }

  /** ... and neither does the silence written when a decoder starts. */
  lemma StartKeepsUnread(s: State, d: int, reserve: nat, q: int)
    requires Core(s) && d !in s.started && reserve + 2 <= |s.cells| && s.rd <= q < s.wr
    ensures Start(s, d, reserve).cells[Slot(q, |s.cells|)] == s.cells[Slot(q, |s.cells|)]
  {
    hide Furthest, Copied, Slot, VoicesOk, Content, Least;
    FastestBounds(s);
    var f := Fastest(s);
    var p := Joined(s, d, reserve).pos[d];
    CopiedAt(s.cells, f, Silent(if p > f then p - f else 0), s.rd, q);
  }
}
