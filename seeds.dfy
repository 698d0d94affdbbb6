/**
 * The fixed reference list of downtime codes that the server inserts, in this
 * order, when it starts against an empty table.
 *
 * The list is held column by column: entry i of the list is
 * `SeedAt(i)`, assembled from the i-th code, description, machine and type.
 */
module Seeds {
  import opened Schema
  import opened Seqs
  import opened Text

  const SeedCount: nat := 89

  /** The i-th entry of the seed list. */
  function SeedAt(i: nat): (entry: InsertDowntimeCode)
    requires i < SeedCount
  {
    InsertDowntimeCode(SeedCode(i), SeedDescription(i), SeedMachine(i), SeedType(i))
  }

  /** The `code` of each seed entry. */
  function SeedCode(i: nat): (code: string)
    requires i < SeedCount
  {
    match i
    case 0 => "D1"
    case 1 => "D2"
    case 2 => "D3"
    case 3 => "D4"
    case 4 => "D5"
    case 5 => "D6"
    case 6 => "D7"
    case 7 => "D8"
    case 8 => "D9"
    case 9 => "D10"
    case 10 => "D11"
    case 11 => "D12"
    case 12 => "D13"
    case 13 => "D14"
    case 14 => "D15"
    case 15 => "D16"
    case 16 => "D17"
    case 17 => "D18"
    case 18 => "D19"
    case 19 => "D20"
    case 20 => "D21"
    case 21 => "D22"
    case 22 => "D23"
    case 23 => "D24"
    case 24 => "D25"
    case 25 => "D26"
    case 26 => "D27"
    case 27 => "D28"
    case 28 => "D29"
    case 29 => "D30"
    case 30 => "D31"
    case 31 => "D32"
    case 32 => "D33"
    case 33 => "D34"
    case 34 => "D35"
    case 35 => "D36"
    case 36 => "D37"
    case 37 => "D38"
    case 38 => "D39"
    case 39 => "D40"
    case 40 => "D41"
    case 41 => "D42"
    case 42 => "D43"
    case 43 => "D44"
    case 44 => "D45"
    case 45 => "D46"
    case 46 => "D47"
    case 47 => "D48"
    case 48 => "D49"
    case 49 => "D50"
    case 50 => "D51"
    case 51 => "D52"
    case 52 => "D53"
    case 53 => "D54"
    case 54 => "D55"
    case 55 => "D56"
    case 56 => "D57"
    case 57 => "D58"
    case 58 => "D59"
    case 59 => "D60"
    case 60 => "D61"
    case 61 => "D62"
    case 62 => "D63"
    case 63 => "D64"
    case 64 => "D65"
    case 65 => "D66"
    case 66 => "D67"
    case 67 => "D68"
    case 68 => "D69"
    case 69 => "D70"
    case 70 => "D71"
    case 71 => "D72"
    case 72 => "D73"
    case 73 => "D74"
    case 74 => "D75"
    case 75 => "D76"
    case 76 => "D77"
    case 77 => "D78"
    case 78 => "D79"
    case 79 => "D80"
    case 80 => "D81"
    case 81 => "D82"
    case 82 => "D83"
    case 83 => "D84"
    case 84 => "D85"
    case 85 => "D86"
    case 86 => "D87"
    case 87 => "D1140"
    case 88 => "D1320"
    case _ => ""
  }

  /** The `description` of each seed entry. */
  function SeedDescription(i: nat): (description: string)
    requires i < SeedCount
  {
    match i
    case 0 => "BAD PACKAGING MATERIALS"
    case 1 => "BAGGING OUT SOAP DUE TO CHANGE IN PLAN"
    case 2 => "BAGGING OUT BLACK SPECS ON SOAP TABLETS"
    case 3 => "BAGGING OUT LOW WEIGHT SOAP"
    case 4 => "BAGGING OUT MILLED SOAP FROM LINE TO RUN ON ANOTHER LINE"
    case 5 => "BAGGING OUT NOODLE PATCHES ON SOAP TABLETS"
    case 6 => "BAGGING OUT OF COLOUR SOAP"
    case 7 => "BAGGING OUT OF SOAP FROM PLODDER"
    case 8 => "BAGGING OUT OFF COLOUR TABLETS DUE TO OFF COLOUR NOODLE"
    case 9 => "BAGGING OUT SOAP DUE TO WHITE SPEC ON SOAP TABLET"
    case 10 => "STAMPER CHANGE OF KINETICS"
    case 11 => "CHANGE OF LINE ELECTRONIC CUTTER"
    case 12 => "CHANGE OF PLODDER GEAR BOX"
    case 13 => "CHANGING OF WRAPPER"
    case 14 => "CUTTER ARM BROKEN"
    case 15 => "CUTTER BASE DISCHARGE BELT CUT"
    case 16 => "CUTTER BILLET ROLLER GUARD SPRING CUT"
    case 17 => "WRONG SILO NOODLE TRANSFER"
    case 18 => "CUTTER COILING SOAP"
    case 19 => "REPACKING OF FINISHED PRODUCT TO ORIGINAL OUTER"
    case 20 => "SUNDAY STOCK-TAKING"
    case 21 => "CUTTER CUTTING IN REVERSE MODE"
    case 22 => "CUTTER DISCHARGE BASE BELT CHANGED"
    case 23 => "CUTTER DISCHARGE BELT CUT"
    case 24 => "CUTTER DISCHARGE BELT ROLLER BEARING BROKEN"
    case 25 => "CUTTER DISCHARGE BELT ROLLER WORKLOOSED"
    case 26 => "CUTTER DISCHARGE BELT SIDE TRACKED"
    case 27 => "CUTTER DISCHARGE BELT WORK LOOSE"
    case 28 => "CUTTER DISCHARGE MOTOR FAULTY"
    case 29 => "CUTTER EMERGENCY SWITCH BOTTON FAILED"
    case 30 => "CUTTER ENCODER FAULTY"
    case 31 => "CUTTER GRIPPER HOLDER FAULTY"
    case 32 => "CUTTER INTERMITTENTLY TRIPPING OFF"
    case 33 => "CUTTER JAMMING AND COILING SOAP"
    case 34 => "CUTTER JAMMING SOAP"
    case 35 => "CUTTER KNIFE ARM BEARING BROKEN"
    case 36 => "CUTTER KNIFE BLADE BROKEN"
    case 37 => "CUTTER KNIFE STURD WORK-LOOSED"
    case 38 => "CUTTER LANE A ARM WORKLOOSED"
    case 39 => "CUTTER LANE A ENCODER BASE BROKE"
    case 40 => "CUTTER LANE A NOT STARTING"
    case 41 => "CUTTER LANE A PRINTING OFF ALIGNMEMT / MISALIGNMENT"
    case 42 => "CUTTER LANE A SOAP JAM / COILING"
    case 43 => "CUTTER LANE A TRIPPING OFF"
    case 44 => "CUTTER LANE B GEAR BOX FAULTY"
    case 45 => "CUTTER LANE B NOT STARTING"
    case 46 => "CUTTER LANE B PRINTING OFF ALIGNMEMT / MISALIGNMENT"
    case 47 => "CUTTER LANE B SOAP JAM / COILING"
    case 48 => "CUTTER LANE B TRIPPING OFF"
    case 49 => "CUTTER LINKER CONVEYOR FAULTY"
    case 50 => "CUTTER MAIN POWER SUPPLY PANEL BURNT"
    case 51 => "CUTTER OFF ALIGNMENT"
    case 52 => "CUTTER OUT OF TIMING"
    case 53 => "CUTTER POOR BILLET CUTTING"
    case 54 => "CUTTER POWER CONTROL FAULTY"
    case 55 => "CUTTER POWER FAILURE"
    case 56 => "WROKLOOSED CUTTER GUIDE FIXED BACK"
    case 57 => "CUTTER ROLLER WORK LOOSE"
    case 58 => "CUTTER SCRAP RETURN CONVEYOR GEAR BOX FAILED"
    case 59 => "CUTTER SEPARATOR BROKEN"
    case 60 => "CUTTER SERVO MOTOR FAULTY"
    case 61 => "CUTTER SOAP DISCHARGE GUIDE WORK-LOOSED"
    case 62 => "CUTTER SPRING CUT"
    case 63 => "CUTTER STABLIZER NOT WORKING"
    case 64 => "CUTTER STUD BROKEN"
    case 65 => "CUTTER SWERVED / SWITCH / CHANGED"
    case 66 => "CUTTER TRIPPING OFF"
    case 67 => "CUTTER UNEQUAL LENGTH CUTTING"
    case 68 => "DIVERTER FAULTY"
    case 69 => "EXHAUSTING SOAP IN THE SYSTEM"
    case 70 => "ONLINE GMP TRAINING"
    case 71 => "HARD PLODDING"
    case 72 => "HIGH CAUSTIC ON SOAP"
    case 73 => "HIGH MOISTURE"
    case 74 => "LACK OF AIR"
    case 75 => "LACK OF MANPOWER"
    case 76 => "LACK OF OUTERS"
    case 77 => "LINE MAINTANANCE"
    case 78 => "LINE ON CONVERSION"
    case 79 => "LINE ON TRIAL"
    case 80 => "LINE POWER CUTOUT"
    case 81 => "LINE RUNNING ON LOW SPEED"
    case 82 => "LINE START-UP DELAY DUE TO CLEANING"
    case 83 => "LOAD CELL TRIAL"
    case 84 => "LOW AIR PRESSURE"
    case 85 => "LOW WEIGHT SOAP"
    case 86 => "MACHINES ON SETTING DUE TO CONVERSION"
    case 87 => "BAGGING OUT SOAP DUE TO HIGH MOISTURE"
    case 88 => "BAD WRAPPER"
    case _ => ""
  }

  /** The `machine` of each seed entry. */
  function SeedMachine(i: nat): (machine: string)
    requires i < SeedCount
  {
    match i
    case 0 => "General"
    case 1 => "General"
    case 2 => "General"
    case 3 => "General"
    case 4 => "General"
    case 5 => "General"
    case 6 => "General"
    case 7 => "General"
    case 8 => "General"
    case 9 => "General"
    case 10 => "Stamper"
    case 11 => "Cutter"
    case 12 => "Plodder"
    case 13 => "General"
    case 14 => "Cutter"
    case 15 => "Cutter"
    case 16 => "Cutter"
    case 17 => "General"
    case 18 => "Cutter"
    case 19 => "General"
    case 20 => "General"
    case 21 => "Cutter"
    case 22 => "Cutter"
    case 23 => "Cutter"
    case 24 => "Cutter"
    case 25 => "Cutter"
    case 26 => "Cutter"
    case 27 => "Cutter"
    case 28 => "Cutter"
    case 29 => "Cutter"
    case 30 => "Cutter"
    case 31 => "Cutter"
    case 32 => "Cutter"
    case 33 => "Cutter"
    case 34 => "Cutter"
    case 35 => "Cutter"
    case 36 => "Cutter"
    case 37 => "Cutter"
    case 38 => "Cutter"
    case 39 => "Cutter"
    case 40 => "Cutter"
    case 41 => "Cutter"
    case 42 => "Cutter"
    case 43 => "Cutter"
    case 44 => "Cutter"
    case 45 => "Cutter"
    case 46 => "Cutter"
    case 47 => "Cutter"
    case 48 => "Cutter"
    case 49 => "Cutter"
    case 50 => "Cutter"
    case 51 => "Cutter"
    case 52 => "Cutter"
    case 53 => "Cutter"
    case 54 => "Cutter"
    case 55 => "Cutter"
    case 56 => "Cutter"
    case 57 => "Cutter"
    case 58 => "Cutter"
    case 59 => "Cutter"
    case 60 => "Cutter"
    case 61 => "Cutter"
    case 62 => "Cutter"
    case 63 => "Cutter"
    case 64 => "Cutter"
    case 65 => "Cutter"
    case 66 => "Cutter"
    case 67 => "Cutter"
    case 68 => "Diverter"
    case 69 => "General"
    case 70 => "General"
    case 71 => "General"
    case 72 => "General"
    case 73 => "General"
    case 74 => "General"
    case 75 => "General"
    case 76 => "General"
    case 77 => "General"
    case 78 => "General"
    case 79 => "General"
    case 80 => "General"
    case 81 => "General"
    case 82 => "General"
    case 83 => "General"
    case 84 => "General"
    case 85 => "General"
    case 86 => "General"
    case 87 => "General"
    case 88 => "Flow Wrap"
    case _ => ""
  }

  /** The `type` of each seed entry. */
  function SeedType(i: nat): (faultType: string)
    requires i < SeedCount
  {
    match i
    case 0 => "Quality"
    case 1 => "Operational"
    case 2 => "Operational"
    case 3 => "Operational"
    case 4 => "Operational"
    case 5 => "Process"
    case 6 => "Operational"
    case 7 => "Operational"
    case 8 => "Process"
    case 9 => "Quality"
    case 10 => "Mechanical"
    case 11 => "Instrument"
    case 12 => "Mechanical"
    case 13 => "Operational"
    case 14 => "Mechanical"
    case 15 => "Mechanical"
    case 16 => "Mechanical"
    case 17 => "Operational"
    case 18 => "Mechanical"
    case 19 => "Operational"
    case 20 => "Operational"
    case 21 => "Instrument"
    case 22 => "Mechanical"
    case 23 => "Mechanical"
    case 24 => "Mechanical"
    case 25 => "Mechanical"
    case 26 => "Mechanical"
    case 27 => "Mechanical"
    case 28 => "Mechanical"
    case 29 => "Instrument"
    case 30 => "Instrument"
    case 31 => "Mechanical"
    case 32 => "Mechanical"
    case 33 => "Mechanical"
    case 34 => "Mechanical"
    case 35 => "Mechanical"
    case 36 => "Mechanical"
    case 37 => "Mechanical"
    case 38 => "Mechanical"
    case 39 => "Mechanical"
    case 40 => "Instrument"
    case 41 => "Mechanical"
    case 42 => "Mechanical"
    case 43 => "Mechanical"
    case 44 => "Mechanical"
    case 45 => "Instrument"
    case 46 => "Mechanical"
    case 47 => "Mechanical"
    case 48 => "Mechanical"
    case 49 => "Instrument"
    case 50 => "Instrument"
    case 51 => "Mechanical"
    case 52 => "Instrument"
    case 53 => "Mechanical"
    case 54 => "Electrical"
    case 55 => "Electrical"
    case 56 => "Mechanical"
    case 57 => "Mechanical"
    case 58 => "Mechanical"
    case 59 => "Mechanical"
    case 60 => "Instrument"
    case 61 => "Mechanical"
    case 62 => "Mechanical"
    case 63 => "Electrical"
    case 64 => "Mechanical"
    case 65 => "Mechanical"
    case 66 => "Instrument"
    case 67 => "Instrument"
    case 68 => "Mechanical"
    case 69 => "Operational"
    case 70 => "Operational"
    case 71 => "Operational"
    case 72 => "Process"
    case 73 => "Process"
    case 74 => "Utility"
    case 75 => "Operational"
    case 76 => "Operational"
    case 77 => "Mechanical"
    case 78 => "Operational"
    case 79 => "Quality"
    case 80 => "Electrical"
    case 81 => "Mechanical"
    case 82 => "Operational"
    case 83 => "Quality"
    case 84 => "Utility"
    case 85 => "Operational"
    case 86 => "Operational"
    case 87 => "Process"
    case 88 => "Quality"
    case _ => ""
  }

  function Digit(c: char): (d: int)
  {
    c as int - '0' as int
  }

  /** The number written after the leading letter of a seed code ("D17" gives 17),
      for codes of two, three or five characters, which is what the list holds. */
  function SeedOrderKey(code: string): (key: int)
  {
    if |code| == 2 then Digit(code[1])
    else if |code| == 3 then 10 * Digit(code[1]) + Digit(code[2])
    else if |code| == 5 then 1000 * Digit(code[1]) + 100 * Digit(code[2]) + 10 * Digit(code[3]) + Digit(code[4])
    else 0
  }

  /** Read as a number after the leading letter, the seed codes count 1 to 87
      in order, followed by 1140 and 1320. */
  lemma SeedCodesNumberedLow()
    ensures forall i :: 0 <= i < 44 ==> SeedOrderKey(SeedCode(i)) == i + 1
  {
  }

  lemma SeedCodesNumberedHigh()
    ensures forall i :: 44 <= i < 87 ==> SeedOrderKey(SeedCode(i)) == i + 1
    ensures SeedOrderKey(SeedCode(87)) == 1140 && SeedOrderKey(SeedCode(88)) == 1320
  {
  }

  /** A code shaped like the seed codes: "D", a non-zero digit, then digits,
      two, three or five characters in all. */
  predicate DNumeral(code: string)
  {
    && (|code| == 2 || |code| == 3 || |code| == 5)
    && code[0] == 'D' && code[1] != '0'
    && forall k :: 1 <= k < |code| ==> '0' <= code[k] <= '9'
  }

  lemma DigitCharOfDigit(c: char)
    requires '0' <= c <= '9'
    ensures DigitChar(Digit(c)) == c
  {
  }

  /** Digits without a leading zero are the numeral of their own value. */
  lemma {:induction false} DigitsNumeral(digits: string)
    requires 1 <= |digits| && digits[0] != '0'
    requires forall k :: 0 <= k < |digits| ==> '0' <= digits[k] <= '9'
    ensures NatToDecimal(DigitsValue(digits)) == digits
    decreases |digits|
  {
    var n := |digits|;
    var last := digits[n - 1];
    DigitCharOfDigit(last);
    if n == 1 {
      assert digits[..0] == [];
      assert DigitsValue(digits) == Digit(last);
      assert digits == [DigitChar(Digit(last))];
    } else {
      var init := digits[..n - 1];
      DigitsNumeral(init);
      DigitsPositive(init);
      NumeralAppend(DigitsValue(init), Digit(last));
      assert digits == init + [last];
    }
  }

  /** The value of a string of digits, most significant first. */
  function DigitsValue(digits: string): (value: nat)
    requires forall k :: 0 <= k < |digits| ==> '0' <= digits[k] <= '9'
  {
    if digits == [] then 0 else 10 * DigitsValue(digits[..|digits| - 1]) + Digit(digits[|digits| - 1])
  }

  lemma {:induction false} DigitsPositive(digits: string)
    requires 1 <= |digits| && digits[0] != '0'
    requires forall k :: 0 <= k < |digits| ==> '0' <= digits[k] <= '9'
    ensures DigitsValue(digits) >= 1
  {
    if |digits| > 1 {
      DigitsPositive(digits[..|digits| - 1]);
    }
  }

  /** A seed-shaped code is "D" followed by the numeral of its order key. */
  lemma DNumeralIsNamed(code: string)
    requires DNumeral(code)
    ensures code == "D" + NatToDecimal(SeedOrderKey(code))
  {
    var digits := code[1..];
    assert forall k :: 0 <= k < |digits| ==> digits[k] == code[k + 1];
    KeyIsDigitsValue(code);
    DigitsNumeral(digits);
    assert code == "D" + digits;
  }

  lemma KeyIsDigitsValue(code: string)
    requires DNumeral(code)
    ensures forall k :: 0 <= k < |code[1..]| ==> '0' <= code[1..][k] <= '9'
    ensures SeedOrderKey(code) == DigitsValue(code[1..])
  {
    var d := code[1..];
    assert forall k :: 0 <= k < |d| ==> d[k] == code[k + 1];
    assert d[..1] == [code[1]] && d[..0] == [];
    assert DigitsValue(d[..1]) == Digit(code[1]);
    if |code| >= 3 {
      assert d[..2][..1] == d[..1];
      assert DigitsValue(d[..2]) == 10 * Digit(code[1]) + Digit(code[2]);
    }
    if |code| == 3 {
      assert d == d[..2];
    }
    if |code| == 5 {
      assert d[..3][..2] == d[..2];
      assert DigitsValue(d[..3]) == 100 * Digit(code[1]) + 10 * Digit(code[2]) + Digit(code[3]);
      assert d[..3] == d[..|d| - 1];
    }
  }

  lemma SeedCodesShapedLow()
    ensures forall i :: 0 <= i < 44 ==> DNumeral(SeedCode(i))
  {
  }

  lemma SeedCodesShapedHigh()
    ensures forall i :: 44 <= i < SeedCount ==> DNumeral(SeedCode(i))
  {
  }

  /** The first 44 codes are "D" followed by the numerals 1 to 44. */
  lemma SeedCodesNamedLow()
    ensures forall i :: 0 <= i < 44 ==> SeedCode(i) == "D" + NatToDecimal(i + 1)
  {
    SeedCodesNumberedLow();
    SeedCodesShapedLow();
    forall i | 0 <= i < 44
      ensures SeedCode(i) == "D" + NatToDecimal(i + 1)
    {
      DNumeralIsNamed(SeedCode(i));
    }
  }

  /** The remaining codes are "D" followed by the numerals 45 to 87, then 1140 and 1320. */
  lemma SeedCodesNamedHigh()
    ensures forall i :: 44 <= i < 87 ==> SeedCode(i) == "D" + NatToDecimal(i + 1)
    ensures SeedCode(87) == "D" + NatToDecimal(1140) && SeedCode(88) == "D" + NatToDecimal(1320)
  {
    SeedCodesNumberedHigh();
    SeedCodesShapedHigh();
    forall i | 44 <= i < SeedCount
      ensures SeedCode(i) == "D" + NatToDecimal(SeedOrderKey(SeedCode(i)))
    {
      DNumeralIsNamed(SeedCode(i));
    }
  }

  /** The seed list as a sequence, in the order it is inserted. */
  function SeedList(): (l: seq<InsertDowntimeCode>)
    ensures |l| == SeedCount
    ensures forall i :: 0 <= i < SeedCount ==> l[i] == SeedAt(i)
  {
    seq(SeedCount, i requires 0 <= i < SeedCount => SeedAt(i))
  }

  /** No two entries of the seed list share a code, so inserting them in turn
      never violates the unique constraint on `code`. */
  lemma SeedCodesDistinct()
    ensures forall i, j :: 0 <= i < j < SeedCount ==> SeedList()[i].code != SeedList()[j].code
  {
    SeedCodesNumberedLow();
    SeedCodesNumberedHigh();
    var l := SeedList();
    forall i, j | 0 <= i < j < SeedCount
      ensures l[i].code != l[j].code
    {
      assert SeedOrderKey(SeedCode(i)) < SeedOrderKey(SeedCode(j));
      assert l[i].code == SeedCode(i) && l[j].code == SeedCode(j);
    }
  }

  /** Every seed entry fits the varchar widths of its columns. */
  lemma SeedsFitColumns()
    ensures forall i :: 0 <= i < SeedCount ==> FitsColumns(ToRecord(SeedList()[i], 0))
  {
    assert forall i :: 0 <= i < SeedCount ==>
      |SeedCode(i)| <= CodeMaxLength && |SeedMachine(i)| <= MachineMaxLength && |SeedType(i)| <= TypeMaxLength;
    var l := SeedList();
    forall i | 0 <= i < SeedCount
      ensures FitsColumns(ToRecord(l[i], 0))
    {
      assert l[i].code == SeedCode(i) && l[i].machine == SeedMachine(i) && l[i].faultType == SeedType(i);
    }
  }

  /** The rows an empty table holds after seeding, when the id sequence starts at
      `start`; they satisfy every constraint of `downtime_codes`. */
  function SeededTable(start: int): (t: seq<DowntimeCode>)
    ensures |t| == SeedCount
    ensures TableInvariant(t)
  {
    SeedCodesDistinct();
    SeedsFitColumns();
    EnumeratedTableValid(SeedList(), start);
    Enumerate(SeedList(), start)
  }
}
