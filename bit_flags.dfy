/**
 * The bit-flag discipline the enum lessons teach. JavaScript applies `|`, `&`
 * and `~` to 32-bit two's-complement integers, so a flag set is a `bv32`.
 * A flag is added with `p |= f`, queried with `(p & f) === f` and removed with
 * `p &= ~f`.
 */
module BitFlags {
  import opened Js

  /**
   * A flags enum of the lessons: None, three flags and Everything, their union.
   * Each lesson declares its enums with `None = 0`, `1 << 0`, `1 << 1`, `1 << 2`.
   */
  datatype PowerEnum = PowerEnum(none: bv32, invincibility: bv32, telepathy: bv32, invisibility: bv32)
  {
    /** `Everything = Invincibility | Telepathy | Invisibility`. */
    function Everything(): (all: bv32)
    {
      invincibility | telepathy | invisibility
    }

    /** None is the empty set and the three flags are distinct single bits. */
    predicate WellFormed()
    {
      none == 0
      && IsSingleBit(invincibility) && IsSingleBit(telepathy) && IsSingleBit(invisibility)
      && invincibility & telepathy == 0
      && invincibility & invisibility == 0
      && telepathy & invisibility == 0
    }
  }

  /** The declaration every flags enum of the lessons uses: `None = 0, 1 << 0, 1 << 1, 1 << 2`. */
  const LessonPowers := PowerEnum(0, 1 << 0, 1 << 1, 1 << 2)

  /** The lessons' declaration gives single bits and Everything = 7. */
  lemma LessonDeclaration()
    ensures LessonPowers.WellFormed()
    ensures LessonPowers.none == 0 && LessonPowers.invincibility == 1
            && LessonPowers.telepathy == 2 && LessonPowers.invisibility == 4
    ensures LessonPowers.Everything() == 7
  {
  }

  predicate IsSingleBit(f: bv32)
  {
    f != 0 && f & (f - 1) == 0
  }

  /** `p | f`. */
  function Add(p: bv32, f: bv32): (r: bv32)
  {
    p | f
  }

  /** `(p & f) === f`: every bit of `f` is set in `p`. */
  predicate Has(p: bv32, f: bv32)
  {
    p & f == f
  }

  /** `p & ~f`. */
  function Remove(p: bv32, f: bv32): (r: bv32)
  {
    p & !f
  }

  /** The number `"..." + p` prints: the 32 bits read as a signed integer. */
  function Int32(p: bv32): (n: int)
  {
    if p < 0x8000_0000 then p as int else p as int - 0x1_0000_0000
  }

  /** `"Power values: " + p`, the line every lesson logs after an update. */
  function PowerValuesLine(p: bv32): (line: string)
  {
    "Power values: " + NumberToString(Int32(p))
  }

  /** The values the scripts log render as their decimal digits. */
  lemma LoggedPowerValues()
    ensures PowerValuesLine(1) == "Power values: 1"
    ensures PowerValuesLine(3) == "Power values: 3"
    ensures PowerValuesLine(7) == "Power values: 7"
  {
    assert Digits(1) == "1" && Digits(3) == "3" && Digits(7) == "7";
  }

  /** `"power & Power.Telepathy === " + (power1 & Power1.Telepathy)`. */
  function MaskLine(masked: bv32): (line: string)
  {
    "power & Power.Telepathy === " + NumberToString(Int32(masked))
  }

  /** The masked value the scripts log renders as "2". */
  lemma LoggedMask()
    ensures MaskLine(2) == "power & Power.Telepathy === 2"
  {
    assert Digits(2) == "2";
  }

  const TelepathyLine := "Power of telepathy available"
  const EverythingLine := "Everything"

  /** After adding `f` the test for `f` holds. */
  lemma AddSets(p: bv32, f: bv32)
    ensures Has(Add(p, f), f)
  {
  }

  /** Adding never clears a bit: every flag present before is present after. */
  lemma AddKeeps(p: bv32, f: bv32, g: bv32)
    requires Has(p, g)
    ensures Has(Add(p, f), g)
  {
  }

  /** After removing a non-empty `f` the test for `f` fails. */
  lemma RemoveClears(p: bv32, f: bv32)
    requires f != 0
    ensures !Has(Remove(p, f), f)
  {
  }

  /** Removing `f` leaves the membership of every flag disjoint from `f` unchanged. */
  lemma RemoveKeepsOthers(p: bv32, f: bv32, g: bv32)
    requires f & g == 0
    ensures Has(Remove(p, f), g) <==> Has(p, g)
  {
  }

  /** Removing a flag that was added undoes the addition. */
  lemma RemoveUndoesAdd(p: bv32, f: bv32)
    requires p & f == 0
    ensures Remove(Add(p, f), f) == p
  {
  }

  /** Adding back a flag that was present restores the set. */
  lemma AddUndoesRemove(p: bv32, f: bv32)
    requires Has(p, f)
    ensures Add(Remove(p, f), f) == p
  {
  }

  lemma HasUnionSplit(p: bv32, f: bv32, g: bv32)
    requires Has(p, f | g)
    ensures Has(p, f) && Has(p, g)
  {
  }

  lemma HasUnionJoin(p: bv32, f: bv32, g: bv32)
    requires Has(p, f) && Has(p, g)
    ensures Has(p, f | g)
  {
  }

  /** A set holds a union of flags exactly when it holds each of them. */
  lemma HasUnion(p: bv32, f: bv32, g: bv32)
    ensures Has(p, f | g) <==> Has(p, f) && Has(p, g)
  {
    if Has(p, f | g) {
      HasUnionSplit(p, f, g);
    }
    if Has(p, f) && Has(p, g) {
      HasUnionJoin(p, f, g);
    }
  }

  lemma HasUnionOfThree(p: bv32, a: bv32, b: bv32, c: bv32)
    ensures Has(p, a | b | c) <==> Has(p, a) && Has(p, b) && Has(p, c)
  {
    HasUnion(p, a | b, c);
    HasUnion(p, a, b);
  }

  /** A set holds Everything exactly when it holds each of the three flags. */
  lemma HasEverything(e: PowerEnum, p: bv32)
    ensures Has(p, e.Everything()) <==> Has(p, e.invincibility) && Has(p, e.telepathy) && Has(p, e.invisibility)
  {
    HasUnionOfThree(p, e.invincibility, e.telepathy, e.invisibility);
  }

  lemma AbsorbedHasNoOtherBit(p: bv32, f: bv32)
    requires Add(p, f) == f
    ensures Remove(p, f) == 0
  {
  }

  lemma NoOtherBitIsAbsorbed(p: bv32, f: bv32)
    requires Remove(p, f) == 0
    ensures Add(p, f) == f
  {
  }

  /** `p |= Everything` yields exactly Everything when `p` holds no other bit. */
  lemma AddEverything(e: PowerEnum, p: bv32)
    ensures Add(p, e.Everything()) == e.Everything() <==> Remove(p, e.Everything()) == 0
  {
    if Add(p, e.Everything()) == e.Everything() {
      AbsorbedHasNoOtherBit(p, e.Everything());
    }
    if Remove(p, e.Everything()) == 0 {
      NoOtherBitIsAbsorbed(p, e.Everything());
    }
  }
}
