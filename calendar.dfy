/**
 * The calendar page scan (`catchDates` after its fetch) and the filter that
 * keeps the available dates (`filterAvailableDates`).
 */
module Calendar {
  import opened Wrappers
  import opened AssocList
  import opened Html

  /** Fewer recorded dates than this is an incomplete calendar. */
  const MinDays := 14
  const NoDatesMessage := "No dates available"

  /** `attribs.class || ""`. */
  function ClassAttr(attrs: Dict<string>): string
  {
    match Lookup(attrs, "class")
    case Some(c) => c
    case None => ""
  }

  /** `attribs['data-date']` used as a property key: a missing attribute is the key "undefined". */
  function DateAttr(attrs: Dict<string>): string
  {
    match Lookup(attrs, "data-date")
    case Some(d) => d
    case None => "undefined"
  }

  /** What the open-tag callback records for one event: a `div` whose class list holds `day-number`. */
  function DayCell(e: Event): Option<(string, bool)>
  {
    if e.OpenTag? && e.name == "div" then
      var classList := SplitSpace(ClassAttr(e.attrs));
      if "day-number" in classList then Some((DateAttr(e.attrs), "available" in classList)) else None
    else None
  }

  function CellList(e: Event): seq<(string, bool)>
  {
    match DayCell(e)
    case Some(c) => [c]
    case None => []
  }

  /** The recorded (date, available) assignments, in document order. */
  function DayCells(evs: seq<Event>): seq<(string, bool)>
  {
    if evs == [] then []
    else
      var n := |evs| - 1;
      DayCells(evs[..n]) + CellList(evs[n])
  }

  /** The outcome of `catchDates` on a fetched page. */
  function CalendarOf(evs: seq<Event>): Result<Dict<bool>>
  {
    var status := PutAll(DayCells(evs));
    if |status| < MinDays then Failure(NoDatesMessage) else Success(status)
  }

  /** `catchDates` after the fetch: fold the open tags into `datesAvailableStatus`, then check its size. */
  method CatchDates(evs: seq<Event>) returns (r: Result<Dict<bool>>)
    ensures r == CalendarOf(evs)
  {
    var datesAvailableStatus: Dict<bool> := [];
    var i := 0;
    while i < |evs|
      invariant 0 <= i <= |evs|
      invariant datesAvailableStatus == PutAll(DayCells(evs[..i]))
      decreases |evs| - i
    {
      var e := evs[i];
      DayCellsStep(evs, i);
      if e.OpenTag? && e.name == "div" {
        var classList := SplitSpace(ClassAttr(e.attrs));
        if "day-number" in classList {
          var date := DateAttr(e.attrs);
          datesAvailableStatus := Put(datesAvailableStatus, date, "available" in classList);
        }
      }
      i := i + 1;
    }
    assert evs[..i] == evs;
    if |datesAvailableStatus| < MinDays {
      return Failure(NoDatesMessage);
    }
    return Success(datesAvailableStatus);
  }

  lemma DayCellsStep(evs: seq<Event>, i: nat)
    requires i < |evs|
    ensures DayCell(evs[i]).Some? ==>
      PutAll(DayCells(evs[..i + 1])) == Put(PutAll(DayCells(evs[..i])), DayCell(evs[i]).value.0, DayCell(evs[i]).value.1)
    ensures DayCell(evs[i]).None? ==> PutAll(DayCells(evs[..i + 1])) == PutAll(DayCells(evs[..i]))
  {
    assert evs[..i + 1][..i] == evs[..i];
    var cells := DayCells(evs[..i]);
    assert DayCells(evs[..i + 1]) == cells + CellList(evs[i]);
    if DayCell(evs[i]).Some? {
      var c := DayCell(evs[i]).value;
      PutAllSnoc(cells, c.0, c.1);
    } else {
      assert cells + CellList(evs[i]) == cells;
    }
  }

  /** The scan fails exactly when fewer than 14 distinct dates were recorded. */
  lemma CalendarThreshold(evs: seq<Event>)
    ensures CalendarOf(evs).Success? <==> |set d | d in Keys(DayCells(evs))| >= MinDays
    ensures CalendarOf(evs).Failure? ==> CalendarOf(evs).error == NoDatesMessage
  {
    PutAllSize(DayCells(evs));
  }

  /** On success every recorded date appears once, in order of its first day cell. */
  lemma CalendarKeys(evs: seq<Event>)
    requires CalendarOf(evs).Success?
    ensures Keys(CalendarOf(evs).value) == Dedup(Keys(DayCells(evs)))
    ensures NoDup(Keys(CalendarOf(evs).value))
  {
    PutAllKeys(DayCells(evs));
  }

  /** On success a repeated date holds the flag of its last day cell. */
  lemma CalendarValue(evs: seq<Event>, i: nat, date: string)
    requires CalendarOf(evs).Success?
    requires IsLastAssignment(DayCells(evs), i, date)
    ensures Lookup(CalendarOf(evs).value, date) == Some(DayCells(evs)[i].1)
  {
    PutAllLookup(DayCells(evs), i, date);
  }

  /**
   * For a class attribute made of space-free words: the tag is a day cell
   * iff it is a `div` and one word is exactly `day-number`, and it is
   * available iff one word is exactly `available`.
   */
  lemma DayCellClassWords(name: string, attrs: Dict<string>, words: seq<string>)
    requires |words| >= 1 && forall w :: w in words ==> ' ' !in w
    requires Lookup(attrs, "class") == Some(JoinSpace(words))
    ensures DayCell(OpenTag(name, attrs)).Some? <==> name == "div" && "day-number" in words
    ensures DayCell(OpenTag(name, attrs)).Some? ==>
      DayCell(OpenTag(name, attrs)).value == (DateAttr(attrs), "available" in words)
  {
    SplitJoin(words);
  }

  /** A tag without a class attribute is never a day cell. */
  lemma DayCellWithoutClass(name: string, attrs: Dict<string>)
    requires Lookup(attrs, "class").None?
    ensures DayCell(OpenTag(name, attrs)).None?
  {
    assert SplitSpace("") == [""];
  }

  /** Words are compared whole: any `div` of class `day-number unavailable` is recorded as not available. */
  lemma UnavailableIsNotAvailable(attrs: Dict<string>)
    requires Lookup(attrs, "class") == Some("day-number unavailable")
    ensures DayCell(OpenTag("div", attrs)) == Some((DateAttr(attrs), false))
  {
    UnavailableWords();
    DayCellClassWords("div", attrs, ["day-number", "unavailable"]);
  }

  /** The class `day-number unavailable` is the two space-free words `day-number` and `unavailable`. */
  lemma UnavailableWords()
    ensures JoinSpace(["day-number", "unavailable"]) == "day-number unavailable"
    ensures forall w :: w in ["day-number", "unavailable"] ==> ' ' !in w
    ensures "day-number" in ["day-number", "unavailable"] && "available" !in ["day-number", "unavailable"]
  {
    var words := ["day-number", "unavailable"];
    assert JoinSpace(words[1..]) == "unavailable";
    assert |"available"| != |words[0]| && |"available"| != |words[1]|;
  }

  // ---------------------------------------------------------------------

  /** The keys mapped to `true`, in key order. */
  function AvailableKeys(dates: Dict<bool>): seq<string>
  {
    if dates == [] then []
    else (if dates[0].1 then [dates[0].0] else []) + AvailableKeys(dates[1..])
  }

  /** Exactly the keys mapped to `true` are listed, and in the order of the keys. */
  lemma {:induction false} AvailableKeysSpec(dates: Dict<bool>)
    ensures forall k :: k in AvailableKeys(dates) <==> (k, true) in dates
    ensures IsSubsequence(AvailableKeys(dates), Keys(dates))
  {
    if dates != [] {
      AvailableKeysSpec(dates[1..]);
      KeysTail(dates);
      var r := AvailableKeys(dates);
      var r' := AvailableKeys(dates[1..]);
      assert dates == [dates[0]] + dates[1..];
      if dates[0].1 {
        assert r == [dates[0].0] + r';
        assert r[1..] == r';
      } else {
        assert r == r';
        if r != [] {
          assert IsSubsequence(r, Keys(dates)[1..]);
        }
      }
    }
  }

  /** Each available date is listed once, and no more dates than there are keys. */
  lemma {:induction false} AvailableKeysNoDup(dates: Dict<bool>)
    requires NoDup(Keys(dates))
    ensures NoDup(AvailableKeys(dates))
    ensures |AvailableKeys(dates)| <= |dates|
  {
    AvailableKeysSpec(dates);
    SubsequenceLength(AvailableKeys(dates), Keys(dates));
    if dates != [] {
      AvailableKeysSpec(dates[1..]);
      KeysTail(dates);
      assert Keys(dates[1..]) == Keys(dates)[1..];
      AvailableKeysNoDup(dates[1..]);
      if dates[0].1 {
        var k := dates[0].0;
        assert k !in Keys(dates[1..]) by {
          forall j | 0 <= j < |dates| - 1 ensures Keys(dates[1..])[j] != k {
            assert Keys(dates)[j + 1] == Keys(dates[1..])[j];
          }
        }
        if k in AvailableKeys(dates[1..]) {
          KeyOfEntry(dates[1..], (k, true));
        }
      }
    }
  }

  /** For a scanned calendar, a date is listed iff it is mapped to `true`. */
  lemma AvailableKeysLookup(dates: Dict<bool>, k: string)
    requires NoDup(Keys(dates))
    ensures k in AvailableKeys(dates) <==> Lookup(dates, k) == Some(true)
  {
    AvailableKeysSpec(dates);
    if (k, true) in dates {
      var i :| 0 <= i < |dates| && dates[i] == (k, true);
      LookupEntry(dates, i);
    }
  }

  /** `filterAvailableDates`: push each key whose value is true. */
  method FilterAvailableDates(dates: Dict<bool>) returns (availableDates: seq<string>)
    ensures availableDates == AvailableKeys(dates)
  {
    availableDates := [];
    var i := 0;
    while i < |dates|
      invariant 0 <= i <= |dates|
      invariant availableDates + AvailableKeys(dates[i..]) == AvailableKeys(dates)
      decreases |dates| - i
    {
      assert dates[i..][1..] == dates[i + 1..];
      assert AvailableKeys(dates[i..]) == (if dates[i].1 then [dates[i].0] else []) + AvailableKeys(dates[i + 1..]);
      if dates[i].1 {
        availableDates := availableDates + [dates[i].0];
      }
      i := i + 1;
    }
    assert availableDates + [] == availableDates;
  }
}
