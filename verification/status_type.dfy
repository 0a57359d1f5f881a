/** The status bit-flags an actor (or camera, or controller) carries: which
    passes it takes part in (drawn, updated) and, for media, its play state.
    Each flag is a distinct power of two so that flags can be OR-combined into
    one status word and tested independently with AND. */
module StatusType {

  /** The six members of the enumeration. */
  datatype Flag = Drawn | Updated | Play | Pause | Stop | Reset

  /** A status word: the underlying 32-bit integer of the enumeration. */
  type Status = bv32

  /** The bit position of each flag. */
  function Bit(f: Flag): (k: nat)
    ensures k < 6
  {
    match f
    case Drawn => 0
    case Updated => 1
    case Play => 2
    case Pause => 3
    case Stop => 4
    case Reset => 5
  }

  /** True when exactly one bit of `v` is set. */
  predicate IsPowerOfTwo(v: Status) {
    v != 0 && v & (v - 1) == 0
  }

  /** The numeric value of each member, as declared. */
  function Value(f: Flag): (v: Status)
    ensures IsPowerOfTwo(v)
    ensures v == (1 as bv32) << Bit(f)
  {
    match f
    case Drawn => 1
    case Updated => 2
    case Play => 4
    case Pause => 8
    case Stop => 16
    case Reset => 32
  }

  /** The flags used for media rather than for the draw/update passes. */
  predicate IsMedia(f: Flag) {
    f == Play || f == Pause || f == Stop || f == Reset
  }

  /** The empty status word: no flag set. */
  const NoFlags: Status := 0

  /** `s | f`: the status word with flag `f` switched on. */
  function With(s: Status, f: Flag): (r: Status)
    ensures Has(r, f)
  {
    s | Value(f)
  }

  /** `(s & f) == f`: the test that flag `f` is set in `s`. */
  predicate Has(s: Status, f: Flag)
    ensures Has(s, f) <==> (s >> Bit(f)) & 1 == 1
  {
    s & Value(f) == Value(f)
  }

  /** `f | g`: two flags combined into one status word. */
  function Combine(f: Flag, g: Flag): (r: Status)
    ensures Has(r, f) && Has(r, g)
  {
    With(With(NoFlags, f), g)
  }

  /** Switching one flag on leaves every other flag as it was. */
  lemma WithKeepsOthers(s: Status, f: Flag, g: Flag)
    requires f != g
    ensures Has(With(s, f), g) == Has(s, g)
  {
    FlagsDisjoint();
    var a, b := Value(f), Value(g);
    assert a & b == 0;
    assert (s | a) & b == s & b;
  }

  /** A combination of two flags holds exactly those two. */
  lemma CombineExactly(f: Flag, g: Flag, h: Flag)
    ensures Has(Combine(f, g), h) <==> h == f || h == g
  {
    if h != f && h != g {
      WithKeepsOthers(With(NoFlags, f), g, h);
      WithKeepsOthers(NoFlags, f, h);
    }
  }

  /** The declared values are pairwise distinct: the bit positions differ. */
  lemma ValuesDistinct(f: Flag, g: Flag)
    ensures Value(f) == Value(g) <==> f == g
    ensures Bit(f) == Bit(g) <==> f == g
  {
  }

  /** Any two distinct members share no bit: their AND is zero. */
  lemma FlagsDisjoint()
    ensures forall f: Flag, g: Flag :: f != g ==> Value(f) & Value(g) == 0
  {
    forall f: Flag, g: Flag | f != g
      ensures Value(f) & Value(g) == 0
    {
      match f
      case Drawn =>
      case Updated =>
      case Play =>
      case Pause =>
      case Stop =>
      case Reset =>
    }
  }

  /** `Updated | Drawn` contains both flags and nothing else, and each flag
      of the pair is tested independently of the other. */
  lemma UpdatedAndDrawn()
    ensures Combine(Updated, Drawn) == 3
    ensures Has(Combine(Updated, Drawn), Updated) && Has(Combine(Updated, Drawn), Drawn)
    ensures forall h :: h != Updated && h != Drawn ==> !Has(Combine(Updated, Drawn), h)
  {
    forall h | h != Updated && h != Drawn
      ensures !Has(Combine(Updated, Drawn), h)
    {
      CombineExactly(Updated, Drawn, h);
    }
  }

  /** A status of `Drawn` alone is the "drawn but not updated" case: a world
      that stays visible while paused. */
  lemma DrawnButNotUpdated()
    ensures Has(Value(Drawn), Drawn)
    ensures !Has(Value(Drawn), Updated)
  {
  }

  /** Switching on a media flag never changes the draw or update bits. */
  lemma MediaLeavesPassesAlone(s: Status, f: Flag)
    requires IsMedia(f)
    ensures With(s, f) & 3 == s & 3
    ensures Has(With(s, f), Drawn) == Has(s, Drawn)
    ensures Has(With(s, f), Updated) == Has(s, Updated)
  {
    WithKeepsOthers(s, f, Drawn);
    WithKeepsOthers(s, f, Updated);
    assert Value(f) & 3 == 0;
  }
}
