/**
 * The bitwise section of the enum-with-and-without-values lesson. Three flag
 * enums are declared, but every update and test uses the first one, `Power`;
 * power2 is only typed as `Power2`. Logged lines are returned in order.
 */
module EnumWithAndWithoutValues {
  import opened Js
  import opened BitFlags

  const Power := LessonPowers
  const Power2 := LessonPowers
  const Power3 := LessonPowers

  /** The declared flags are distinct single bits, Everything is 7, and the three enums agree. */
  lemma PowerDeclarations()
    ensures Power.WellFormed() && Power.Everything() == 7
    ensures Power2 == Power && Power3 == Power
  {
    LessonDeclaration();
  }

  /** The bitwise section of the lesson, top to bottom. */
  method Run() returns (power1: bv32, power2: bv32, power3: bv32, log: seq<string>)
    ensures power1 == 3 && power2 == 1 && power3 == Power.Everything() == 7
    ensures Has(power1, Power.telepathy)
    ensures Has(power2, Power.invincibility) && !Has(power2, Power.telepathy)
    ensures log == [PowerValuesLine(3), TelepathyLine,
                    PowerValuesLine(3), TelepathyLine, PowerValuesLine(1),
                    PowerValuesLine(3), TelepathyLine, PowerValuesLine(1),
                    PowerValuesLine(7), EverythingLine]
  {
    LessonDeclaration();

    power1 := Add(Power.invincibility, Power.telepathy);
    log := [PowerValuesLine(power1)];
    if Has(power1, Power.telepathy) {
      log := log + [TelepathyLine];
    }

    power2 := Add(Power.invincibility, Power.telepathy);
    log := log + [PowerValuesLine(power2)];
    if Has(power2, Power.telepathy) {
      log := log + [TelepathyLine];
    }
    power2 := Remove(power2, Power.telepathy);  // power2 &= ~Power.Telepathy
    log := log + [PowerValuesLine(power2)];
    if Has(power2, Power.telepathy) {
      log := log + [TelepathyLine];
    }

    power3 := Add(Power.invincibility, Power.telepathy);
    log := log + [PowerValuesLine(power3)];
    if Has(power3, Power.telepathy) {
      log := log + [TelepathyLine];
    }
    power3 := Remove(power3, Power.telepathy);
    log := log + [PowerValuesLine(power3)];
    if Has(power3, Power.telepathy) {
      log := log + [TelepathyLine];
    }
    power3 := Add(power3, 7);  // power3 |= 7
    log := log + [PowerValuesLine(power3)];
    if power3 == Power.Everything() {
      log := log + [EverythingLine];
    }
  }
}
