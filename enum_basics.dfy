/**
 * The bitwise section of the enum-basics lesson: its heading line, then the
 * same three flag enums and the same in-place updates of power1..power3 as the
 * bitwise-values script. Logged lines are returned in order.
 */
module EnumBasics {
  import opened Js
  import opened BitFlags

  const Power1 := LessonPowers
  const Power2 := LessonPowers
  const Power3 := LessonPowers

  /** Telepathy is 2 in all three enums, so masking with another enum's flag removes the same bit. */
  lemma CrossEnumMasks(p: bv32)
    ensures Power1.telepathy == Power2.telepathy == Power3.telepathy == 2
    ensures Remove(p, Power1.telepathy) == Remove(p, Power2.telepathy)
    ensures Power1.Everything() == Power3.Everything() == 7
  {
    LessonDeclaration();
  }

  /** The bitwise section of the lesson, top to bottom. */
  method Run() returns (power1: bv32, power2: bv32, power3: bv32, log: seq<string>)
    ensures power1 == 3 && power2 == 1 && power3 == Power3.Everything() == 7
    ensures Has(power2, Power2.invincibility) && !Has(power2, Power2.telepathy)
    ensures log == ["Example 1: enum with bitwise values",
                    PowerValuesLine(3), MaskLine(2), TelepathyLine,
                    PowerValuesLine(3), TelepathyLine, PowerValuesLine(1),
                    PowerValuesLine(3), TelepathyLine, PowerValuesLine(1),
                    PowerValuesLine(7), EverythingLine]
  {
    LessonDeclaration();
    log := ["Example 1: enum with bitwise values"];

    power1 := Add(Power1.invincibility, Power1.telepathy);
    log := log + [PowerValuesLine(power1)];
    if Has(power1, Power1.telepathy) {
      log := log + [MaskLine(power1 & Power1.telepathy), TelepathyLine];
    }

    power2 := Add(Power2.invincibility, Power2.telepathy);
    log := log + [PowerValuesLine(power2)];
    if Has(power2, Power2.telepathy) {
      log := log + [TelepathyLine];
    }
    power2 := Remove(power2, Power1.telepathy);  // power2 &= ~Power1.Telepathy
    log := log + [PowerValuesLine(power2)];
    if Has(power2, Power2.telepathy) {
      log := log + [TelepathyLine];
    }

    power3 := Add(Power3.invincibility, Power1.telepathy);
    log := log + [PowerValuesLine(power3)];
    if Has(power3, Power3.telepathy) {
      log := log + [TelepathyLine];
    }
    power3 := Remove(power3, Power3.telepathy);
    log := log + [PowerValuesLine(power3)];
    if Has(power3, Power3.telepathy) {
      log := log + [TelepathyLine];
    }
    power3 := Add(power3, 7);  // power3 |= 7
    log := log + [PowerValuesLine(power3)];
    if power3 == Power3.Everything() {
      log := log + [EverythingLine];
    }
  }
}
