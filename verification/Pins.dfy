/**
  Where the frames of an activation are. A pin is the part of a stack segment that lies below an
  activation: it stays as it is, on its stack, through every move of the machine, until the
  activation is left; a raise may put it into a ring and a resume back on the chain.
 */
module Pins {
  import opened Options
  import opened Salt
  import opened Layout
  import opened LayoutSteps
  import opened Matching
  import opened Activations
  import L = Lexa

  function Height(segs: seq<Seg>): nat
  {
    |Strip(segs)|
  }

  /** Segment s starts with the frames of pin, and d source frames lie up to there. */
  ghost predicate PinAt(segs: seq<Seg>, s: nat, pin: Seg, d: nat)
  {
    && s < |segs| && |pin.fs| <= |segs[s].fs| && segs[s].(fs := segs[s].fs[..|pin.fs|]) == pin
    && Height(segs[..s]) + |StripSeg(pin)| == d
  }

  /** The activation above the pin has called on from a let. */
  ghost predicate Covered(segs: seq<Seg>, s: nat, pin: Seg)
  {
    s < |segs| && |pin.fs| < |segs[s].fs| && segs[s].fs[|pin.fs|].MLet?
  }

  /** Or it is running. */
  ghost predicate OnTop(segs: seq<Seg>, s: nat, pin: Seg)
  {
    s + 1 == |segs| && segs[s].fs == pin.fs
  }

  // ----- heights -----

  lemma {:induction false} FsHeight(fs: seq<MFrame>, n: nat)
    requires n <= |fs|
    ensures |StripFs(fs[..n])| <= |StripFs(fs)|
    ensures n < |fs| && !fs[n].MTramp? ==> |StripFs(fs[..n])| < |StripFs(fs)|
    decreases |fs|
  {
    if n == |fs| {
      assert fs[..n] == fs;
    } else {
      assert fs[..|fs| - 1][..n] == fs[..n];
      FsHeight(fs[..|fs| - 1], n);
    }
  }

  lemma HeightSplit(segs: seq<Seg>, j: nat)
    requires j <= |segs|
    ensures Height(segs) == Height(segs[..j]) + Height(segs[j..])
  {
    StripConcat(segs[..j], segs[j..]);
    assert segs == segs[..j] + segs[j..];
  }

  lemma HeightSnoc(segs: seq<Seg>, j: nat)
    requires j < |segs|
    ensures Height(segs[..j + 1]) == Height(segs[..j]) + |StripSeg(segs[j])|
  {
    StripSnoc(segs[..j], segs[j]);
    assert segs[..j + 1] == segs[..j] + [segs[j]];
  }

  lemma HeightMonotone(segs: seq<Seg>, i: nat, j: nat)
    requires i <= j <= |segs|
    ensures Height(segs[..i]) <= Height(segs[..j])
  {
    HeightSplit(segs[..j], i);
    assert segs[..j][..i] == segs[..i];
  }

  /** A pin in segment s is not higher than the segments up to s, and higher than those below. */
  lemma PinHeight(segs: seq<Seg>, s: nat, pin: Seg, d: nat)
    requires PinAt(segs, s, pin, d) && AllNew(segs[1..])
    ensures d <= Height(segs[..s + 1]) <= Height(segs)
    ensures Covered(segs, s, pin) ==> d < Height(segs[..s + 1])
    ensures s > 0 ==> Height(segs[..s]) < d
  {
    HeightSnoc(segs, s);
    HeightMonotone(segs, s + 1, |segs|);
    assert segs[..|segs|] == segs;
    FsHeight(segs[s].fs, |pin.fs|);
    if s > 0 {
      assert segs[s] == segs[1..][s - 1];
    }
  }

  // ----- the moves -----

  /** A let is pushed: the activation on top has called on. */
  lemma PinUnderLet(segs: seq<Seg>, s: nat, pin: Seg, d: nat, f: MFrame)
    requires PinAt(segs, s, pin, d) && (Covered(segs, s, pin) || OnTop(segs, s, pin)) && f.MLet?
    ensures PinAt(WithFrame(segs, f), s, pin, d) && Covered(WithFrame(segs, f), s, pin)
    ensures WithFrame(segs, f)[..s] == segs[..s]
  {
    assert WithFrame(segs, f)[..s] == segs[..s];
  }

  lemma PinUnderFrame(segs: seq<Seg>, s: nat, pin: Seg, d: nat, f: MFrame)
    requires PinAt(segs, s, pin, d) && Covered(segs, s, pin)
    ensures PinAt(WithFrame(segs, f), s, pin, d) && Covered(WithFrame(segs, f), s, pin)
    ensures WithFrame(segs, f)[..s] == segs[..s]
  {
    assert WithFrame(segs, f)[..s] == segs[..s];
  }

  lemma PinBelow(segs: seq<Seg>, s: nat, pin: Seg, d: nat, more: seq<Seg>)
    requires PinAt(segs, s, pin, d) && Covered(segs, s, pin)
    ensures PinAt(segs + more, s, pin, d) && Covered(segs + more, s, pin) && (segs + more)[..s] == segs[..s]
  {
    assert (segs + more)[..s] == segs[..s];
  }

  lemma PinInPrefix(segs: seq<Seg>, s: nat, pin: Seg, d: nat, j: nat)
    requires PinAt(segs, s, pin, d) && Covered(segs, s, pin) && s < j <= |segs|
    ensures PinAt(segs[..j], s, pin, d) && Covered(segs[..j], s, pin) && segs[..j][..s] == segs[..s]
  {
    assert segs[..j][..s] == segs[..s];
  }

  lemma PinInSuffix(segs: seq<Seg>, s: nat, pin: Seg, d: nat, j: nat)
    requires PinAt(segs, s, pin, d) && Covered(segs, s, pin) && j <= s
    ensures Height(segs[..j]) <= d
    ensures PinAt(segs[j..], s - j, pin, d - Height(segs[..j])) && Covered(segs[j..], s - j, pin)
  {
    HeightSplit(segs[..s], j);
    assert segs[..s][..j] == segs[..j] && segs[..s][j..] == segs[j..][..s - j];
  }

  lemma PinRejoined(segs: seq<Seg>, ring: seq<Seg>, s: nat, pin: Seg, d: nat)
    requires PinAt(ring, s, pin, d) && Covered(ring, s, pin)
    ensures PinAt(segs + ring, |segs| + s, pin, Height(segs) + d) && Covered(segs + ring, |segs| + s, pin)
  {
    StripConcat(segs, ring[..s]);
    assert (segs + ring)[..|segs| + s] == segs + ring[..s];
  }

  lemma CutHeight(segs: seq<Seg>, j: nat, n: nat)
    requires j < |segs| && n < |segs[j].fs|
    ensures Height(CutAt(segs, j, n)) == Height(segs[..j]) + |StripBase(segs[j].base)| +
            |StripFs(segs[j].fs[..n])| <= Height(segs[..j + 1])
  {
    StripSnoc(segs[..j], segs[j].(fs := segs[j].fs[..n]));
    FsHeight(segs[j].fs, n);
    HeightSnoc(segs, j);
  }

  /** A cut that leaves d source frames, at a frame that is one, is not below the pin. */
  lemma CutAbovePin(segs: seq<Seg>, s: nat, pin: Seg, d: nat, j: nat, n: nat)
    requires PinAt(segs, s, pin, d) && AllNew(segs[1..])
    requires j < |segs| && n < |segs[j].fs| && !segs[j].fs[n].MTramp? && Height(CutAt(segs, j, n)) >= d
    ensures s <= j && (s == j ==> |pin.fs| <= n)
  {
    PinHeight(segs, s, pin, d);
    CutHeight(segs, j, n);
    if s > j {
      HeightMonotone(segs, j + 1, s);
    } else if s == j && n < |pin.fs| {
      assert pin.fs[..n] == segs[j].fs[..n];
      FsHeight(pin.fs, n);
    }
  }

  lemma PinCut(segs: seq<Seg>, s: nat, pin: Seg, d: nat, j: nat, n: nat)
    requires PinAt(segs, s, pin, d) && (Covered(segs, s, pin) || OnTop(segs, s, pin)) && AllNew(segs[1..])
    requires j < |segs| && n < |segs[j].fs| && !segs[j].fs[n].MTramp? && Height(CutAt(segs, j, n)) >= d
    ensures PinAt(CutAt(segs, j, n), s, pin, d) && CutAt(segs, j, n)[..s] == segs[..s]
    ensures Covered(CutAt(segs, j, n), s, pin) || OnTop(CutAt(segs, j, n), s, pin)
  {
    CutAbovePin(segs, s, pin, d, j, n);
    assert CutAt(segs, j, n)[..s] == segs[..s];
    if s == j {
      assert segs[j].fs[..n][..|pin.fs|] == pin.fs;
    }
  }

  lemma PinAfterLeave(segs: seq<Seg>, s: nat, pin: Seg, d: nat)
    requires PinAt(segs, s, pin, d) && (Covered(segs, s, pin) || OnTop(segs, s, pin)) && AllNew(segs[1..])
    requires |segs| > 1 && Height(segs[..|segs| - 1]) >= d
    ensures s < |segs| - 1 && PinAt(segs[..|segs| - 1], s, pin, d) && Covered(segs[..|segs| - 1], s, pin)
    ensures segs[..|segs| - 1][..s] == segs[..s]
  {
    PinHeight(segs, s, pin, d);
    PinInPrefix(segs, s, pin, d, |segs| - 1);
  }

  /** An activation at full height is the one that runs. */
  lemma PinRuns(segs: seq<Seg>, s: nat, pin: Seg, d: nat)
    requires PinAt(segs, s, pin, d) && (Covered(segs, s, pin) || OnTop(segs, s, pin)) && AllNew(segs[1..])
    requires d == Height(segs)
    ensures OnTop(segs, s, pin)
  {
    PinHeight(segs, s, pin, d);
  }
}
