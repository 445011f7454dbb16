/** The frontend's `parseLoad`: the load a string stands for in the estimated
    volume and the load chart. */
module Api {
  import opened Digits

  const Bodyweight: string := "Bodyweight"

  /** 0 for the empty string and for exactly "Bodyweight"; otherwise the value of the
      first run of decimal digits anywhere in the string, or 0 when it has no digit. */
  function ParseLoad(load: string): (r: nat)
    ensures load == Bodyweight ==> r == 0
    ensures r > 0 ==> FirstDigitIndex(load) < |load|
  {
    if load == "" || load == Bodyweight then 0
    else
      var k := FirstDigitIndex(load);
      if k == |load| then 0 else DecimalValue(LeadingDigits(load[k..], 10))
  }

  /** parseLoad described without the helper functions: skip every non-digit, then
      read the maximal digit run that follows. */
  lemma ParseLoadSpec(load: string, k: nat, run: string)
    requires load != "" && load != Bodyweight
    requires k < |load| && forall i :: 0 <= i < k ==> !IsDigit(load[i])
    requires run != [] && AllDigits(run) && run <= load[k..]
    requires k + |run| < |load| ==> !IsDigit(load[k + |run|])
    ensures ParseLoad(load) == DecimalValue(run)
  {
    var f := FirstDigitIndex(load);
    assert IsDigit(load[k]) by { assert load[k] == run[0]; }
    assert f == k;
    MaximalDigitPrefixUnique(run, load[k..], 10);
  }

  /** A string without any digit parses to 0. */
  lemma NoDigitsIsZero(load: string)
    requires NoDigits(load)
    ensures ParseLoad(load) == 0
  {
  }

  /** A string of decimal digits only parses to its numeric value. */
  lemma DigitsParseToTheirValue(load: string)
    requires load != [] && AllDigits(load)
    ensures ParseLoad(load) == DecimalValue(load)
  {
    LeadingDigitsOfDigits(load, 10);
  }

  /** Examples: "55-50" is 55 and "30+" is 30, as in the backend. */
  lemma ParseLoadExamples()
    ensures ParseLoad("55-50") == 55
    ensures ParseLoad("30+") == 30
  {
    ParseLoadSpec("55-50", 0, "55");
    assert DecimalValue("55") == 55 by {
      assert "55"[..1] == "5";
      assert "5"[..0] == "";
    }
    ParseLoadSpec("30+", 0, "30");
    assert DecimalValue("30") == 30 by {
      assert "30"[..1] == "3";
      assert "3"[..0] == "";
    }
  }

  /** Unlike the backend, leading non-digits are skipped: "~20" parses to 20. */
  lemma ParseLoadSkipsPrefix()
    ensures ParseLoad("~20") == 20
  {
    ParseLoadSpec("~20", 1, "20");
    assert DecimalValue("20") == 20 by {
      assert "20"[..1] == "2";
      assert "2"[..0] == "";
    }
  }

  /** Both body-weight spellings parse to 0: "Bodyweight" by the guard and
      "Corpo libero" because it has no digit. */
  lemma ParseLoadBodyweight()
    ensures ParseLoad(Bodyweight) == 0
    ensures ParseLoad("Corpo libero") == 0
  {
    NoDigitsIsZero("Corpo libero");
  }
}
