/**
 * Rule-based query rephrasing of the backend retriever
 * (`semantic_rephrase_query`): the query is trimmed and lower-cased, then
 * tested against an ordered list of fault keywords; the first keyword found
 * selects a fixed, more descriptive query, and a query with no keyword is
 * passed on trimmed but with its case kept.
 */
module Retriever {
  import opened Text

  /*
   * The six fixed rephrasings. Each is written word by word, so that the
   * proofs below can reason about one short word at a time; the value is
   * the plain sentence.
   */
  const STUCK_TEXT := "elevator" + " " + "stuck" + " " + "between" + " " + "floors" + " " + "or" + " " + "motor" + " " + "jammed"
  const NOISE_TEXT := "elevator" + " " + "making" + " " + "unusual" + " " + "mechanical" + " " + "noise"
  const VIBRATION_TEXT := "elevator" + " " + "vibrating" + " " + "due" + " " + "to" + " " + "misalignment" + " " + "or" + " " + "bearing" + " " + "fault"
  const NOT_MOVING_TEXT := "elevator" + " " + "not moving" + " " + "possibly" + " " + "due" + " " + "to" + " " + "control" + " " + "failure" + " " + "or" + " " + "power" + " " + "issue"
  const OVERHEAT_TEXT := "motor" + " " + ("overheat" + "ing") + " " + "or" + " " + "electrical" + " " + "contactor" + " " + "failure"
  const DOOR_TEXT := "elevator" + " " + "door" + " " + "not" + " " + "closing" + " " + "or" + " " + "door" + " " + "sensor" + " " + "malfunction"

  /** One of the six fixed rephrasings. */
  predicate IsFixedText(s: string) {
    s == STUCK_TEXT || s == NOISE_TEXT || s == VIBRATION_TEXT ||
    s == NOT_MOVING_TEXT || s == OVERHEAT_TEXT || s == DOOR_TEXT
  }

  /** The form the keywords are matched against. */
  function Normalize(rawQuery: string): string {
    ToLower(Trim(rawQuery))
  }

  /** The normalised query contains one of the seven keywords. */
  predicate HasKeyword(q: string) {
    Contains(q, "stuck") || Contains(q, "noise") || Contains(q, "vibration") || Contains(q, "not moving") ||
    Contains(q, "overheat") || Contains(q, "hot") || Contains(q, "door")
  }

  /**
   * The fixed text chosen for a normalised query: that of the first keyword
   * the query contains, in the order stuck, noise, vibration, not moving,
   * overheat or hot, door.
   */
  function FixedTextFor(q: string): (r: Option<string>)
    ensures r.Some? ==> IsFixedText(r.value)
    ensures r.None? <==> !HasKeyword(q)
    ensures Contains(q, "stuck") ==> r == Some(STUCK_TEXT)
    ensures !Contains(q, "stuck") && Contains(q, "noise") ==> r == Some(NOISE_TEXT)
    ensures !Contains(q, "stuck") && !Contains(q, "noise") && Contains(q, "vibration") ==> r == Some(VIBRATION_TEXT)
    ensures (!Contains(q, "stuck") && !Contains(q, "noise") && !Contains(q, "vibration") &&
             Contains(q, "not moving")) ==> r == Some(NOT_MOVING_TEXT)
    ensures (!Contains(q, "stuck") && !Contains(q, "noise") && !Contains(q, "vibration") &&
             !Contains(q, "not moving") && (Contains(q, "overheat") || Contains(q, "hot"))) ==> r == Some(OVERHEAT_TEXT)
    ensures (!Contains(q, "stuck") && !Contains(q, "noise") && !Contains(q, "vibration") &&
             !Contains(q, "not moving") && !Contains(q, "overheat") && !Contains(q, "hot") &&
             Contains(q, "door")) ==> r == Some(DOOR_TEXT)
  {
    if Contains(q, "stuck") then Some(STUCK_TEXT)
    else if Contains(q, "noise") then Some(NOISE_TEXT)
    else if Contains(q, "vibration") then Some(VIBRATION_TEXT)
    else if Contains(q, "not moving") then Some(NOT_MOVING_TEXT)
    else if Contains(q, "overheat") || Contains(q, "hot") then Some(OVERHEAT_TEXT)
    else if Contains(q, "door") then Some(DOOR_TEXT)
    else None
  }

  /**
   * The rephrased query: the fixed text of the first keyword found in the
   * normalised query, else the trimmed query as typed.
   */
  function Rephrase(rawQuery: string): (r: string)
    ensures IsFixedText(r) || r == Trim(rawQuery)
    ensures HasKeyword(Normalize(rawQuery)) ==> IsFixedText(r) && FixedTextFor(Normalize(rawQuery)) == Some(r)
    ensures !HasKeyword(Normalize(rawQuery)) ==> r == Trim(rawQuery)
  {
    match FixedTextFor(Normalize(rawQuery))
    case Some(text) => text
    case None => Trim(rawQuery)
  }

  /**
   * The result is a fixed text exactly when the query has a keyword, or is
   * the vibration text itself. That text says "vibrating", so it holds no
   * keyword and is passed through unchanged; every other fixed text
   * contains its own keyword once normalised.
   */
  lemma {:induction false} FixedIffKeyword(rawQuery: string)
    ensures IsFixedText(Rephrase(rawQuery)) <==> HasKeyword(Normalize(rawQuery)) || Trim(rawQuery) == VIBRATION_TEXT
  {
    var t := Trim(rawQuery);
    if !HasKeyword(Normalize(rawQuery)) && IsFixedText(t) && t != VIBRATION_TEXT {
      TrimIdempotent(rawQuery);
      assert Normalize(rawQuery) == Normalize(t);
      if t == STUCK_TEXT {
        StuckIsNormal();
        StuckHasKeyword();
      } else if t == NOISE_TEXT {
        NoiseIsNormal();
        NoiseHasKeyword();
      } else if t == NOT_MOVING_TEXT {
        NotMovingIsNormal();
        NotMovingHasKeyword();
      } else if t == OVERHEAT_TEXT {
        OverheatIsNormal();
        OverheatHasKeyword();
      } else {
        DoorIsNormal();
        DoorHasKeyword();
      }
      assert false;
    }
  }

  /** Surrounding whitespace never changes the outcome. */
  lemma {:induction false} RephraseOfTrimmed(rawQuery: string)
    ensures Rephrase(Trim(rawQuery)) == Rephrase(rawQuery)
  {
    TrimIdempotent(rawQuery);
    NormalizeOfTrimmed(rawQuery);
  }

  lemma NormalizeOfTrimmed(rawQuery: string)
    ensures Normalize(Trim(rawQuery)) == Normalize(rawQuery)
  {
    TrimIdempotent(rawQuery);
  }

  /** Rephrasing a second time changes nothing. */
  lemma {:induction false} RephraseIdempotent(rawQuery: string)
    ensures Rephrase(Rephrase(rawQuery)) == Rephrase(rawQuery)
  {
    var r := Rephrase(rawQuery);
    if r == STUCK_TEXT {
      StuckIsFixed();
    } else if r == NOISE_TEXT {
      NoiseIsFixed();
    } else if r == VIBRATION_TEXT {
      VibrationIsFixed();
    } else if r == NOT_MOVING_TEXT {
      NotMovingIsFixed();
    } else if r == OVERHEAT_TEXT {
      OverheatIsFixed();
    } else if r == DOOR_TEXT {
      DoorIsFixed();
    } else {
      RephraseOfTrimmed(rawQuery);
    }
  }

  /** The first keyword in the fixed order wins, whatever the case: "door stuck" is a stuck car. */
  lemma DoorStuckIsStuck()
    ensures Rephrase("Door STUCK") == STUCK_TEXT
  {
    DoorStuckIsNormalised();
    DoorStuckMatchesStuck();
  }

  lemma DoorStuckMatchesStuck()
    ensures FixedTextFor("door stuck") == Some(STUCK_TEXT)
  {
    assert OccursAt("door stuck", "stuck", 5);
  }

  lemma DoorStuckIsNormalised()
    ensures Normalize("Door STUCK") == "door stuck"
  {
    assert Trimmed("Door STUCK");
    TrimOfTrimmed("Door STUCK");
  }

  lemma PhotoMatchesHot()
    ensures FixedTextFor("photo") == Some(OVERHEAT_TEXT)
  {
    MissingChar("photo", "stuck", 's');
    MissingChar("photo", "noise", 'n');
    MissingChar("photo", "vibration", 'v');
    MissingChar("photo", "not moving", 'm');
    assert OccursAt("photo", "hot", 1);
  }

  lemma PhotoIsNormal()
    ensures Normalize("photo") == "photo"
  {
    assert Trimmed("photo");
    TrimOfTrimmed("photo");
    ToLowerOfLower("photo");
  }

  /** `hot` is matched anywhere, so "photo" reads as overheating. */
  lemma PhotoIsOverheating()
    ensures Rephrase("photo") == OVERHEAT_TEXT
  {
    PhotoIsNormal();
    PhotoMatchesHot();
  }

  lemma HumMatchesNothing()
    ensures FixedTextFor("hum") == None
  {
    var q := "hum";
    MissingChar(q, "stuck", 's');
    MissingChar(q, "noise", 'n');
    MissingChar(q, "vibration", 'v');
    MissingChar(q, "not moving", 'o');
    MissingChar(q, "overheat", 'o');
    MissingChar(q, "hot", 'o');
    MissingChar(q, "door", 'd');
  }

  /** Without a keyword the query is only trimmed; its case is kept. */
  lemma NoKeywordKeepsCase(rawQuery: string)
    requires !HasKeyword(Normalize(rawQuery))
    ensures Rephrase(rawQuery) == Trim(rawQuery)
    ensures IsFixedText(Rephrase(rawQuery)) ==> Trim(rawQuery) == VIBRATION_TEXT
  {
    FixedIffKeyword(rawQuery);
  }

  /** "Hum" has no keyword, so it is passed on with its capital kept. */
  lemma HumKeepsCase()
    ensures Rephrase("Hum") == "Hum"
  {
    HumIsNormalised();
    HumMatchesNothing();
  }

  lemma HumIsNormalised()
    ensures Trim("Hum") == "Hum" && Normalize("Hum") == "hum"
  {
    assert Trimmed("Hum");
    TrimOfTrimmed("Hum");
  }

  lemma StuckHasNoCapitals()
    ensures forall x :: 'A' <= x <= 'Z' ==> x !in STUCK_TEXT
  {
  }

  lemma StuckIsNormal()
    ensures Normalize(STUCK_TEXT) == STUCK_TEXT
  {
    assert !IsSpace(STUCK_TEXT[0]) && !IsSpace(STUCK_TEXT[|STUCK_TEXT| - 1]);
    TrimOfTrimmed(STUCK_TEXT);
    StuckHasNoCapitals();
    ToLowerOfLower(STUCK_TEXT);
  }

  lemma StuckHasKeyword()
    ensures Contains(STUCK_TEXT, "stuck")
  {
    var p := "stuck";
    var a := "elevator" + " ";
    OccursAtEnd(a, p);
    var s := a + p;
    OccursExtend(s, p, |a|, " ");
    s := s + " ";
    OccursExtend(s, p, |a|, "between");
    s := s + "between";
    OccursExtend(s, p, |a|, " ");
    s := s + " ";
    OccursExtend(s, p, |a|, "floors");
    s := s + "floors";
    OccursExtend(s, p, |a|, " ");
    s := s + " ";
    OccursExtend(s, p, |a|, "or");
    s := s + "or";
    OccursExtend(s, p, |a|, " ");
    s := s + " ";
    OccursExtend(s, p, |a|, "motor");
    s := s + "motor";
    OccursExtend(s, p, |a|, " ");
    s := s + " ";
    OccursExtend(s, p, |a|, "jammed");
    s := s + "jammed";
    assert s == STUCK_TEXT;
    assert OccursAt(STUCK_TEXT, p, |a|);
  }

  /** Rephrasing `STUCK_TEXT` gives it back unchanged. */
  lemma StuckIsFixed()
    ensures Rephrase(STUCK_TEXT) == STUCK_TEXT
  {
    StuckIsNormal();
    StuckHasKeyword();
  }

  lemma NoiseHasNoCapitals()
    ensures forall x :: 'A' <= x <= 'Z' ==> x !in NOISE_TEXT
  {
  }

  lemma NoiseIsNormal()
    ensures Normalize(NOISE_TEXT) == NOISE_TEXT
  {
    assert !IsSpace(NOISE_TEXT[0]) && !IsSpace(NOISE_TEXT[|NOISE_TEXT| - 1]);
    TrimOfTrimmed(NOISE_TEXT);
    NoiseHasNoCapitals();
    ToLowerOfLower(NOISE_TEXT);
  }

  lemma NoStuckInNoise()
    ensures !Contains(NOISE_TEXT, "stuck")
  {
    var p := "stuck";
    MissingChar("elevator", p, 's');
    var s := "elevator";
    MissingChar("making", p, 's');
    SplitForeign(s, ' ', "making", p);
    s := s + " " + "making";
    MissingChar("unusual", p, 't');
    SplitForeign(s, ' ', "unusual", p);
    s := s + " " + "unusual";
    MissingChar("mechanical", p, 's');
    SplitForeign(s, ' ', "mechanical", p);
    s := s + " " + "mechanical";
    MissingChar("noise", p, 't');
    SplitForeign(s, ' ', "noise", p);
    s := s + " " + "noise";
    assert s == NOISE_TEXT;
  }

  lemma NoiseHasKeyword()
    ensures Contains(NOISE_TEXT, "noise")
  {
    var p := "noise";
    var a := "elevator" + " " + "making" + " " + "unusual" + " " + "mechanical" + " ";
    OccursAtEnd(a, p);
    var s := a + p;
    assert s == NOISE_TEXT;
    assert OccursAt(NOISE_TEXT, p, |a|);
  }

  /** Rephrasing `NOISE_TEXT` gives it back unchanged. */
  lemma NoiseIsFixed()
    ensures Rephrase(NOISE_TEXT) == NOISE_TEXT
  {
    NoiseIsNormal();
    NoStuckInNoise();
    NoiseHasKeyword();
  }

  lemma VibrationHasNoCapitals()
    ensures forall x :: 'A' <= x <= 'Z' ==> x !in VIBRATION_TEXT
  {
  }

  lemma VibrationIsNormal()
    ensures Normalize(VIBRATION_TEXT) == VIBRATION_TEXT
  {
    assert !IsSpace(VIBRATION_TEXT[0]) && !IsSpace(VIBRATION_TEXT[|VIBRATION_TEXT| - 1]);
    TrimOfTrimmed(VIBRATION_TEXT);
    VibrationHasNoCapitals();
    ToLowerOfLower(VIBRATION_TEXT);
  }

  lemma NoStuckInVibration()
    ensures !Contains(VIBRATION_TEXT, "stuck")
  {
    var p := "stuck";
    MissingChar("elevator", p, 's');
    var s := "elevator";
    MissingChar("vibrating", p, 's');
    SplitForeign(s, ' ', "vibrating", p);
    s := s + " " + "vibrating";
    MissingChar("due", p, 's');
    SplitForeign(s, ' ', "due", p);
    s := s + " " + "due";
    MissingChar("to", p, 's');
    SplitForeign(s, ' ', "to", p);
    s := s + " " + "to";
    MissingChar("misalignment", p, 'u');
    SplitForeign(s, ' ', "misalignment", p);
    s := s + " " + "misalignment";
    MissingChar("or", p, 's');
    SplitForeign(s, ' ', "or", p);
    s := s + " " + "or";
    MissingChar("bearing", p, 's');
    SplitForeign(s, ' ', "bearing", p);
    s := s + " " + "bearing";
    MissingChar("fault", p, 's');
    SplitForeign(s, ' ', "fault", p);
    s := s + " " + "fault";
    assert s == VIBRATION_TEXT;
  }

  lemma NoNoiseInVibration()
    ensures !Contains(VIBRATION_TEXT, "noise")
  {
    var p := "noise";
    MissingChar("elevator", p, 'n');
    var s := "elevator";
    MissingChar("vibrating", p, 'o');
    SplitForeign(s, ' ', "vibrating", p);
    s := s + " " + "vibrating";
    MissingChar("due", p, 'n');
    SplitForeign(s, ' ', "due", p);
    s := s + " " + "due";
    MissingChar("to", p, 'n');
    SplitForeign(s, ' ', "to", p);
    s := s + " " + "to";
    MissingChar("misalignment", p, 'o');
    SplitForeign(s, ' ', "misalignment", p);
    s := s + " " + "misalignment";
    MissingChar("or", p, 'n');
    SplitForeign(s, ' ', "or", p);
    s := s + " " + "or";
    MissingChar("bearing", p, 'o');
    SplitForeign(s, ' ', "bearing", p);
    s := s + " " + "bearing";
    MissingChar("fault", p, 'n');
    SplitForeign(s, ' ', "fault", p);
    s := s + " " + "fault";
    assert s == VIBRATION_TEXT;
  }

  lemma NoVibrationInVibration()
    ensures !Contains(VIBRATION_TEXT, "vibration")
  {
    var p := "vibration";
    MissingChar("elevator", p, 'i');
    var s := "elevator";
    MissingChar("vibrating", p, 'o');
    SplitForeign(s, ' ', "vibrating", p);
    s := s + " " + "vibrating";
    MissingChar("due", p, 'v');
    SplitForeign(s, ' ', "due", p);
    s := s + " " + "due";
    MissingChar("to", p, 'v');
    SplitForeign(s, ' ', "to", p);
    s := s + " " + "to";
    MissingChar("misalignment", p, 'v');
    SplitForeign(s, ' ', "misalignment", p);
    s := s + " " + "misalignment";
    MissingChar("or", p, 'v');
    SplitForeign(s, ' ', "or", p);
    s := s + " " + "or";
    MissingChar("bearing", p, 'v');
    SplitForeign(s, ' ', "bearing", p);
    s := s + " " + "bearing";
    MissingChar("fault", p, 'v');
    SplitForeign(s, ' ', "fault", p);
    s := s + " " + "fault";
    assert s == VIBRATION_TEXT;
  }

  lemma NoNotMovingInVibration()
    ensures !Contains(VIBRATION_TEXT, "not moving")
  {
    var p := "moving";
    MissingChar("elevator", p, 'm');
    var s := "elevator";
    MissingChar("vibrating", p, 'm');
    SplitForeign(s, ' ', "vibrating", p);
    s := s + " " + "vibrating";
    MissingChar("due", p, 'm');
    SplitForeign(s, ' ', "due", p);
    s := s + " " + "due";
    MissingChar("to", p, 'm');
    SplitForeign(s, ' ', "to", p);
    s := s + " " + "to";
    MissingChar("misalignment", p, 'o');
    SplitForeign(s, ' ', "misalignment", p);
    s := s + " " + "misalignment";
    MissingChar("or", p, 'm');
    SplitForeign(s, ' ', "or", p);
    s := s + " " + "or";
    MissingChar("bearing", p, 'm');
    SplitForeign(s, ' ', "bearing", p);
    s := s + " " + "bearing";
    MissingChar("fault", p, 'm');
    SplitForeign(s, ' ', "fault", p);
    s := s + " " + "fault";
    assert s == VIBRATION_TEXT;
    MissingSuffix(VIBRATION_TEXT, "not moving", 4);
  }

  lemma NoOverheatInVibration()
    ensures !Contains(VIBRATION_TEXT, "overheat")
  {
    var p := "overheat";
    MissingChar("elevator", p, 'h');
    var s := "elevator";
    MissingChar("vibrating", p, 'o');
    SplitForeign(s, ' ', "vibrating", p);
    s := s + " " + "vibrating";
    MissingChar("due", p, 'o');
    SplitForeign(s, ' ', "due", p);
    s := s + " " + "due";
    MissingChar("to", p, 'v');
    SplitForeign(s, ' ', "to", p);
    s := s + " " + "to";
    MissingChar("misalignment", p, 'o');
    SplitForeign(s, ' ', "misalignment", p);
    s := s + " " + "misalignment";
    MissingChar("or", p, 'v');
    SplitForeign(s, ' ', "or", p);
    s := s + " " + "or";
    MissingChar("bearing", p, 'o');
    SplitForeign(s, ' ', "bearing", p);
    s := s + " " + "bearing";
    MissingChar("fault", p, 'o');
    SplitForeign(s, ' ', "fault", p);
    s := s + " " + "fault";
    assert s == VIBRATION_TEXT;
  }

  lemma NoHotInVibration()
    ensures !Contains(VIBRATION_TEXT, "hot")
  {
    var p := "hot";
    MissingChar("elevator", p, 'h');
    var s := "elevator";
    MissingChar("vibrating", p, 'h');
    SplitForeign(s, ' ', "vibrating", p);
    s := s + " " + "vibrating";
    MissingChar("due", p, 'h');
    SplitForeign(s, ' ', "due", p);
    s := s + " " + "due";
    MissingChar("to", p, 'h');
    SplitForeign(s, ' ', "to", p);
    s := s + " " + "to";
    MissingChar("misalignment", p, 'h');
    SplitForeign(s, ' ', "misalignment", p);
    s := s + " " + "misalignment";
    MissingChar("or", p, 'h');
    SplitForeign(s, ' ', "or", p);
    s := s + " " + "or";
    MissingChar("bearing", p, 'h');
    SplitForeign(s, ' ', "bearing", p);
    s := s + " " + "bearing";
    MissingChar("fault", p, 'h');
    SplitForeign(s, ' ', "fault", p);
    s := s + " " + "fault";
    assert s == VIBRATION_TEXT;
  }

  lemma NoDoorInVibration()
    ensures !Contains(VIBRATION_TEXT, "door")
  {
    var p := "door";
    MissingChar("elevator", p, 'd');
    var s := "elevator";
    MissingChar("vibrating", p, 'd');
    SplitForeign(s, ' ', "vibrating", p);
    s := s + " " + "vibrating";
    MissingChar("due", p, 'o');
    SplitForeign(s, ' ', "due", p);
    s := s + " " + "due";
    MissingChar("to", p, 'd');
    SplitForeign(s, ' ', "to", p);
    s := s + " " + "to";
    MissingChar("misalignment", p, 'd');
    SplitForeign(s, ' ', "misalignment", p);
    s := s + " " + "misalignment";
    MissingChar("or", p, 'd');
    SplitForeign(s, ' ', "or", p);
    s := s + " " + "or";
    MissingChar("bearing", p, 'd');
    SplitForeign(s, ' ', "bearing", p);
    s := s + " " + "bearing";
    MissingChar("fault", p, 'd');
    SplitForeign(s, ' ', "fault", p);
    s := s + " " + "fault";
    assert s == VIBRATION_TEXT;
  }

  /** Rephrasing `VIBRATION_TEXT` gives it back unchanged. */
  lemma VibrationIsFixed()
    ensures Rephrase(VIBRATION_TEXT) == VIBRATION_TEXT
  {
    VibrationIsNormal();
    NoStuckInVibration();
    NoNoiseInVibration();
    NoVibrationInVibration();
    NoNotMovingInVibration();
    NoOverheatInVibration();
    NoHotInVibration();
    NoDoorInVibration();
    TrimIdempotent(VIBRATION_TEXT);
  }

  lemma NotMovingHasNoCapitals()
    ensures forall x :: 'A' <= x <= 'Z' ==> x !in NOT_MOVING_TEXT
  {
  }

  lemma NotMovingIsNormal()
    ensures Normalize(NOT_MOVING_TEXT) == NOT_MOVING_TEXT
  {
    assert !IsSpace(NOT_MOVING_TEXT[0]) && !IsSpace(NOT_MOVING_TEXT[|NOT_MOVING_TEXT| - 1]);
    TrimOfTrimmed(NOT_MOVING_TEXT);
    NotMovingHasNoCapitals();
    ToLowerOfLower(NOT_MOVING_TEXT);
  }

  lemma NoStuckInNotMoving()
    ensures !Contains(NOT_MOVING_TEXT, "stuck")
  {
    var p := "stuck";
    MissingChar("elevator", p, 's');
    var s := "elevator";
    MissingChar("not moving", p, 's');
    SplitForeign(s, ' ', "not moving", p);
    s := s + " " + "not moving";
    MissingChar("possibly", p, 't');
    SplitForeign(s, ' ', "possibly", p);
    s := s + " " + "possibly";
    MissingChar("due", p, 's');
    SplitForeign(s, ' ', "due", p);
    s := s + " " + "due";
    MissingChar("to", p, 's');
    SplitForeign(s, ' ', "to", p);
    s := s + " " + "to";
    MissingChar("control", p, 's');
    SplitForeign(s, ' ', "control", p);
    s := s + " " + "control";
    MissingChar("failure", p, 's');
    SplitForeign(s, ' ', "failure", p);
    s := s + " " + "failure";
    MissingChar("or", p, 's');
    SplitForeign(s, ' ', "or", p);
    s := s + " " + "or";
    MissingChar("power", p, 's');
    SplitForeign(s, ' ', "power", p);
    s := s + " " + "power";
    MissingChar("issue", p, 't');
    SplitForeign(s, ' ', "issue", p);
    s := s + " " + "issue";
    assert s == NOT_MOVING_TEXT;
  }

  lemma NoNoiseInNotMoving()
    ensures !Contains(NOT_MOVING_TEXT, "noise")
  {
    var p := "noise";
    MissingChar("elevator", p, 'n');
    var s := "elevator";
    MissingChar("not moving", p, 's');
    SplitForeign(s, ' ', "not moving", p);
    s := s + " " + "not moving";
    MissingChar("possibly", p, 'n');
    SplitForeign(s, ' ', "possibly", p);
    s := s + " " + "possibly";
    MissingChar("due", p, 'n');
    SplitForeign(s, ' ', "due", p);
    s := s + " " + "due";
    MissingChar("to", p, 'n');
    SplitForeign(s, ' ', "to", p);
    s := s + " " + "to";
    MissingChar("control", p, 'i');
    SplitForeign(s, ' ', "control", p);
    s := s + " " + "control";
    MissingChar("failure", p, 'n');
    SplitForeign(s, ' ', "failure", p);
    s := s + " " + "failure";
    MissingChar("or", p, 'n');
    SplitForeign(s, ' ', "or", p);
    s := s + " " + "or";
    MissingChar("power", p, 'n');
    SplitForeign(s, ' ', "power", p);
    s := s + " " + "power";
    MissingChar("issue", p, 'n');
    SplitForeign(s, ' ', "issue", p);
    s := s + " " + "issue";
    assert s == NOT_MOVING_TEXT;
  }

  lemma NoVibrationInNotMoving()
    ensures !Contains(NOT_MOVING_TEXT, "vibration")
  {
    var p := "vibration";
    MissingChar("elevator", p, 'i');
    var s := "elevator";
    MissingChar("not moving", p, 'b');
    SplitForeign(s, ' ', "not moving", p);
    s := s + " " + "not moving";
    MissingChar("possibly", p, 'v');
    SplitForeign(s, ' ', "possibly", p);
    s := s + " " + "possibly";
    MissingChar("due", p, 'v');
    SplitForeign(s, ' ', "due", p);
    s := s + " " + "due";
    MissingChar("to", p, 'v');
    SplitForeign(s, ' ', "to", p);
    s := s + " " + "to";
    MissingChar("control", p, 'v');
    SplitForeign(s, ' ', "control", p);
    s := s + " " + "control";
    MissingChar("failure", p, 'v');
    SplitForeign(s, ' ', "failure", p);
    s := s + " " + "failure";
    MissingChar("or", p, 'v');
    SplitForeign(s, ' ', "or", p);
    s := s + " " + "or";
    MissingChar("power", p, 'v');
    SplitForeign(s, ' ', "power", p);
    s := s + " " + "power";
    MissingChar("issue", p, 'v');
    SplitForeign(s, ' ', "issue", p);
    s := s + " " + "issue";
    assert s == NOT_MOVING_TEXT;
  }

  lemma NotMovingHasKeyword()
    ensures Contains(NOT_MOVING_TEXT, "not moving")
  {
    var p := "not moving";
    var a := "elevator" + " ";
    OccursAtEnd(a, p);
    var s := a + p;
    OccursExtend(s, p, |a|, " ");
    s := s + " ";
    OccursExtend(s, p, |a|, "possibly");
    s := s + "possibly";
    OccursExtend(s, p, |a|, " ");
    s := s + " ";
    OccursExtend(s, p, |a|, "due");
    s := s + "due";
    OccursExtend(s, p, |a|, " ");
    s := s + " ";
    OccursExtend(s, p, |a|, "to");
    s := s + "to";
    OccursExtend(s, p, |a|, " ");
    s := s + " ";
    OccursExtend(s, p, |a|, "control");
    s := s + "control";
    OccursExtend(s, p, |a|, " ");
    s := s + " ";
    OccursExtend(s, p, |a|, "failure");
    s := s + "failure";
    OccursExtend(s, p, |a|, " ");
    s := s + " ";
    OccursExtend(s, p, |a|, "or");
    s := s + "or";
    OccursExtend(s, p, |a|, " ");
    s := s + " ";
    OccursExtend(s, p, |a|, "power");
    s := s + "power";
    OccursExtend(s, p, |a|, " ");
    s := s + " ";
    OccursExtend(s, p, |a|, "issue");
    s := s + "issue";
    assert s == NOT_MOVING_TEXT;
    assert OccursAt(NOT_MOVING_TEXT, p, |a|);
  }

  /** Rephrasing `NOT_MOVING_TEXT` gives it back unchanged. */
  lemma NotMovingIsFixed()
    ensures Rephrase(NOT_MOVING_TEXT) == NOT_MOVING_TEXT
  {
    NotMovingIsNormal();
    NoStuckInNotMoving();
    NoNoiseInNotMoving();
    NoVibrationInNotMoving();
    NotMovingHasKeyword();
  }

  lemma OverheatHasNoCapitals()
    ensures forall x :: 'A' <= x <= 'Z' ==> x !in OVERHEAT_TEXT
  {
  }

  lemma OverheatIsNormal()
    ensures Normalize(OVERHEAT_TEXT) == OVERHEAT_TEXT
  {
    assert !IsSpace(OVERHEAT_TEXT[0]) && !IsSpace(OVERHEAT_TEXT[|OVERHEAT_TEXT| - 1]);
    TrimOfTrimmed(OVERHEAT_TEXT);
    OverheatHasNoCapitals();
    ToLowerOfLower(OVERHEAT_TEXT);
  }

  lemma NoStuckInOverheat()
    ensures !Contains(OVERHEAT_TEXT, "stuck")
  {
    var p := "stuck";
    MissingChar("motor", p, 's');
    var s := "motor";
    MissingChar(("overheat" + "ing"), p, 's');
    SplitForeign(s, ' ', ("overheat" + "ing"), p);
    s := s + " " + ("overheat" + "ing");
    MissingChar("or", p, 's');
    SplitForeign(s, ' ', "or", p);
    s := s + " " + "or";
    MissingChar("electrical", p, 's');
    SplitForeign(s, ' ', "electrical", p);
    s := s + " " + "electrical";
    MissingChar("contactor", p, 's');
    SplitForeign(s, ' ', "contactor", p);
    s := s + " " + "contactor";
    MissingChar("failure", p, 's');
    SplitForeign(s, ' ', "failure", p);
    s := s + " " + "failure";
    assert s == OVERHEAT_TEXT;
  }

  lemma NoNoiseInOverheat()
    ensures !Contains(OVERHEAT_TEXT, "noise")
  {
    var p := "noise";
    MissingChar("motor", p, 'n');
    var s := "motor";
    MissingChar(("overheat" + "ing"), p, 's');
    SplitForeign(s, ' ', ("overheat" + "ing"), p);
    s := s + " " + ("overheat" + "ing");
    MissingChar("or", p, 'n');
    SplitForeign(s, ' ', "or", p);
    s := s + " " + "or";
    MissingChar("electrical", p, 'n');
    SplitForeign(s, ' ', "electrical", p);
    s := s + " " + "electrical";
    MissingChar("contactor", p, 'i');
    SplitForeign(s, ' ', "contactor", p);
    s := s + " " + "contactor";
    MissingChar("failure", p, 'n');
    SplitForeign(s, ' ', "failure", p);
    s := s + " " + "failure";
    assert s == OVERHEAT_TEXT;
  }

  lemma NoVibrationInOverheat()
    ensures !Contains(OVERHEAT_TEXT, "vibration")
  {
    var p := "vibration";
    MissingChar("motor", p, 'v');
    var s := "motor";
    MissingChar(("overheat" + "ing"), p, 'b');
    SplitForeign(s, ' ', ("overheat" + "ing"), p);
    s := s + " " + ("overheat" + "ing");
    MissingChar("or", p, 'v');
    SplitForeign(s, ' ', "or", p);
    s := s + " " + "or";
    MissingChar("electrical", p, 'v');
    SplitForeign(s, ' ', "electrical", p);
    s := s + " " + "electrical";
    MissingChar("contactor", p, 'v');
    SplitForeign(s, ' ', "contactor", p);
    s := s + " " + "contactor";
    MissingChar("failure", p, 'v');
    SplitForeign(s, ' ', "failure", p);
    s := s + " " + "failure";
    assert s == OVERHEAT_TEXT;
  }

  lemma NoNotMovingInOverheat()
    ensures !Contains(OVERHEAT_TEXT, "not moving")
  {
    var p := "moving";
    MissingChar("motor", p, 'v');
    var s := "motor";
    MissingChar(("overheat" + "ing"), p, 'm');
    SplitForeign(s, ' ', ("overheat" + "ing"), p);
    s := s + " " + ("overheat" + "ing");
    MissingChar("or", p, 'm');
    SplitForeign(s, ' ', "or", p);
    s := s + " " + "or";
    MissingChar("electrical", p, 'm');
    SplitForeign(s, ' ', "electrical", p);
    s := s + " " + "electrical";
    MissingChar("contactor", p, 'm');
    SplitForeign(s, ' ', "contactor", p);
    s := s + " " + "contactor";
    MissingChar("failure", p, 'm');
    SplitForeign(s, ' ', "failure", p);
    s := s + " " + "failure";
    assert s == OVERHEAT_TEXT;
    MissingSuffix(OVERHEAT_TEXT, "not moving", 4);
  }

  lemma OverheatHasKeyword()
    ensures Contains(OVERHEAT_TEXT, "overheat")
  {
    var p := "overheat";
    var a := "motor" + " ";
    OccursAtStart(p, "ing");
    OccursPrepend(a, p + "ing", p, 0);
    var s := a + (p + "ing");
    OccursExtend(s, p, |a|, " ");
    s := s + " ";
    OccursExtend(s, p, |a|, "or");
    s := s + "or";
    OccursExtend(s, p, |a|, " ");
    s := s + " ";
    OccursExtend(s, p, |a|, "electrical");
    s := s + "electrical";
    OccursExtend(s, p, |a|, " ");
    s := s + " ";
    OccursExtend(s, p, |a|, "contactor");
    s := s + "contactor";
    OccursExtend(s, p, |a|, " ");
    s := s + " ";
    OccursExtend(s, p, |a|, "failure");
    s := s + "failure";
    assert s == OVERHEAT_TEXT;
    assert OccursAt(OVERHEAT_TEXT, p, |a|);
  }

  /** Rephrasing `OVERHEAT_TEXT` gives it back unchanged. */
  lemma OverheatIsFixed()
    ensures Rephrase(OVERHEAT_TEXT) == OVERHEAT_TEXT
  {
    OverheatIsNormal();
    NoStuckInOverheat();
    NoNoiseInOverheat();
    NoVibrationInOverheat();
    NoNotMovingInOverheat();
    OverheatHasKeyword();
  }

  lemma DoorHasNoCapitals()
    ensures forall x :: 'A' <= x <= 'Z' ==> x !in DOOR_TEXT
  {
  }

  lemma DoorIsNormal()
    ensures Normalize(DOOR_TEXT) == DOOR_TEXT
  {
    assert !IsSpace(DOOR_TEXT[0]) && !IsSpace(DOOR_TEXT[|DOOR_TEXT| - 1]);
    TrimOfTrimmed(DOOR_TEXT);
    DoorHasNoCapitals();
    ToLowerOfLower(DOOR_TEXT);
  }

  lemma NoStuckInDoor()
    ensures !Contains(DOOR_TEXT, "stuck")
  {
    var p := "stuck";
    MissingChar("elevator", p, 's');
    var s := "elevator";
    MissingChar("door", p, 's');
    SplitForeign(s, ' ', "door", p);
    s := s + " " + "door";
    MissingChar("not", p, 's');
    SplitForeign(s, ' ', "not", p);
    s := s + " " + "not";
    MissingChar("closing", p, 't');
    SplitForeign(s, ' ', "closing", p);
    s := s + " " + "closing";
    MissingChar("or", p, 's');
    SplitForeign(s, ' ', "or", p);
    s := s + " " + "or";
    MissingChar("door", p, 's');
    SplitForeign(s, ' ', "door", p);
    s := s + " " + "door";
    MissingChar("sensor", p, 't');
    SplitForeign(s, ' ', "sensor", p);
    s := s + " " + "sensor";
    MissingChar("malfunction", p, 's');
    SplitForeign(s, ' ', "malfunction", p);
    s := s + " " + "malfunction";
    assert s == DOOR_TEXT;
  }

  lemma NoNoiseInDoor()
    ensures !Contains(DOOR_TEXT, "noise")
  {
    var p := "noise";
    MissingChar("elevator", p, 'n');
    var s := "elevator";
    MissingChar("door", p, 'n');
    SplitForeign(s, ' ', "door", p);
    s := s + " " + "door";
    MissingChar("not", p, 'i');
    SplitForeign(s, ' ', "not", p);
    s := s + " " + "not";
    MissingChar("closing", p, 'e');
    SplitForeign(s, ' ', "closing", p);
    s := s + " " + "closing";
    MissingChar("or", p, 'n');
    SplitForeign(s, ' ', "or", p);
    s := s + " " + "or";
    MissingChar("door", p, 'n');
    SplitForeign(s, ' ', "door", p);
    s := s + " " + "door";
    MissingChar("sensor", p, 'i');
    SplitForeign(s, ' ', "sensor", p);
    s := s + " " + "sensor";
    MissingChar("malfunction", p, 's');
    SplitForeign(s, ' ', "malfunction", p);
    s := s + " " + "malfunction";
    assert s == DOOR_TEXT;
  }

  lemma NoVibrationInDoor()
    ensures !Contains(DOOR_TEXT, "vibration")
  {
    var p := "vibration";
    MissingChar("elevator", p, 'i');
    var s := "elevator";
    MissingChar("door", p, 'v');
    SplitForeign(s, ' ', "door", p);
    s := s + " " + "door";
    MissingChar("not", p, 'v');
    SplitForeign(s, ' ', "not", p);
    s := s + " " + "not";
    MissingChar("closing", p, 'v');
    SplitForeign(s, ' ', "closing", p);
    s := s + " " + "closing";
    MissingChar("or", p, 'v');
    SplitForeign(s, ' ', "or", p);
    s := s + " " + "or";
    MissingChar("door", p, 'v');
    SplitForeign(s, ' ', "door", p);
    s := s + " " + "door";
    MissingChar("sensor", p, 'v');
    SplitForeign(s, ' ', "sensor", p);
    s := s + " " + "sensor";
    MissingChar("malfunction", p, 'v');
    SplitForeign(s, ' ', "malfunction", p);
    s := s + " " + "malfunction";
    assert s == DOOR_TEXT;
  }

  lemma NoNotMovingInDoor()
    ensures !Contains(DOOR_TEXT, "not moving")
  {
    var p := "moving";
    MissingChar("elevator", p, 'm');
    var s := "elevator";
    MissingChar("door", p, 'm');
    SplitForeign(s, ' ', "door", p);
    s := s + " " + "door";
    MissingChar("not", p, 'm');
    SplitForeign(s, ' ', "not", p);
    s := s + " " + "not";
    MissingChar("closing", p, 'm');
    SplitForeign(s, ' ', "closing", p);
    s := s + " " + "closing";
    MissingChar("or", p, 'm');
    SplitForeign(s, ' ', "or", p);
    s := s + " " + "or";
    MissingChar("door", p, 'm');
    SplitForeign(s, ' ', "door", p);
    s := s + " " + "door";
    MissingChar("sensor", p, 'm');
    SplitForeign(s, ' ', "sensor", p);
    s := s + " " + "sensor";
    MissingChar("malfunction", p, 'v');
    SplitForeign(s, ' ', "malfunction", p);
    s := s + " " + "malfunction";
    assert s == DOOR_TEXT;
    MissingSuffix(DOOR_TEXT, "not moving", 4);
  }

  lemma NoOverheatInDoor()
    ensures !Contains(DOOR_TEXT, "overheat")
  {
    var p := "overheat";
    MissingChar("elevator", p, 'h');
    var s := "elevator";
    MissingChar("door", p, 'v');
    SplitForeign(s, ' ', "door", p);
    s := s + " " + "door";
    MissingChar("not", p, 'v');
    SplitForeign(s, ' ', "not", p);
    s := s + " " + "not";
    MissingChar("closing", p, 'v');
    SplitForeign(s, ' ', "closing", p);
    s := s + " " + "closing";
    MissingChar("or", p, 'v');
    SplitForeign(s, ' ', "or", p);
    s := s + " " + "or";
    MissingChar("door", p, 'v');
    SplitForeign(s, ' ', "door", p);
    s := s + " " + "door";
    MissingChar("sensor", p, 'v');
    SplitForeign(s, ' ', "sensor", p);
    s := s + " " + "sensor";
    MissingChar("malfunction", p, 'v');
    SplitForeign(s, ' ', "malfunction", p);
    s := s + " " + "malfunction";
    assert s == DOOR_TEXT;
  }

  lemma NoHotInDoor()
    ensures !Contains(DOOR_TEXT, "hot")
  {
    var p := "hot";
    MissingChar("elevator", p, 'h');
    var s := "elevator";
    MissingChar("door", p, 'h');
    SplitForeign(s, ' ', "door", p);
    s := s + " " + "door";
    MissingChar("not", p, 'h');
    SplitForeign(s, ' ', "not", p);
    s := s + " " + "not";
    MissingChar("closing", p, 'h');
    SplitForeign(s, ' ', "closing", p);
    s := s + " " + "closing";
    MissingChar("or", p, 'h');
    SplitForeign(s, ' ', "or", p);
    s := s + " " + "or";
    MissingChar("door", p, 'h');
    SplitForeign(s, ' ', "door", p);
    s := s + " " + "door";
    MissingChar("sensor", p, 'h');
    SplitForeign(s, ' ', "sensor", p);
    s := s + " " + "sensor";
    MissingChar("malfunction", p, 'h');
    SplitForeign(s, ' ', "malfunction", p);
    s := s + " " + "malfunction";
    assert s == DOOR_TEXT;
  }

  lemma DoorHasKeyword()
    ensures Contains(DOOR_TEXT, "door")
  {
    var p := "door";
    var a := "elevator" + " ";
    OccursAtEnd(a, p);
    var s := a + p;
    OccursExtend(s, p, |a|, " ");
    s := s + " ";
    OccursExtend(s, p, |a|, "not");
    s := s + "not";
    OccursExtend(s, p, |a|, " ");
    s := s + " ";
    OccursExtend(s, p, |a|, "closing");
    s := s + "closing";
    OccursExtend(s, p, |a|, " ");
    s := s + " ";
    OccursExtend(s, p, |a|, "or");
    s := s + "or";
    OccursExtend(s, p, |a|, " ");
    s := s + " ";
    OccursExtend(s, p, |a|, "door");
    s := s + "door";
    OccursExtend(s, p, |a|, " ");
    s := s + " ";
    OccursExtend(s, p, |a|, "sensor");
    s := s + "sensor";
    OccursExtend(s, p, |a|, " ");
    s := s + " ";
    OccursExtend(s, p, |a|, "malfunction");
    s := s + "malfunction";
    assert s == DOOR_TEXT;
    assert OccursAt(DOOR_TEXT, p, |a|);
  }

  /** Rephrasing `DOOR_TEXT` gives it back unchanged. */
  lemma DoorIsFixed()
    ensures Rephrase(DOOR_TEXT) == DOOR_TEXT
  {
    DoorIsNormal();
    NoStuckInDoor();
    NoNoiseInDoor();
    NoVibrationInDoor();
    NoNotMovingInDoor();
    NoOverheatInDoor();
    NoHotInDoor();
    DoorHasKeyword();
  }
}
