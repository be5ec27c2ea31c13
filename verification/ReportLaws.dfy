/** What is shown and counted, in the words that stand in the output. */
module ReportLaws {
  import opened Tlmx
  import opened Report
  import opened ReportSummary

  // ---------------------------------------------------------------------------
  // Occurrences, on the characters themselves.
  // ---------------------------------------------------------------------------

  predicate IsAt(s: string, q: nat, pat: string) {
    q + |pat| <= |s| && forall k :: 0 <= k < |pat| ==> s[q + k] == pat[k]
  }

  /** pat occurs in s, first at p. */
  predicate FirstAt(s: string, pat: string, p: nat) {
    IsAt(s, p, pat) && forall q :: 0 <= q < p ==> !IsAt(s, q, pat)
  }

  predicate Nowhere(s: string, pat: string) {
    forall q :: 0 <= q <= |s| ==> !IsAt(s, q, pat)
  }

  lemma OccursIsAt(s: string, q: nat, pat: string)
    ensures OccursAt(s, q, pat) <==> IsAt(s, q, pat)
  {
    if OccursAt(s, q, pat) {
      forall k | 0 <= k < |pat|
        ensures s[q + k] == pat[k]
      {
        assert s[q..q + |pat|][k] == s[q + k];
      }
    }
  }

  /** find finds the first occurrence, and fails exactly when there is none. */
  lemma FindFinds(s: string, pat: string)
    ensures forall p: nat :: Find(s, pat) == Some(p) <==> FirstAt(s, pat, p)
    ensures Find(s, pat) == None <==> Nowhere(s, pat)
  {
    forall q: nat
      ensures OccursAt(s, q, pat) <==> IsAt(s, q, pat)
    {
      OccursIsAt(s, q, pat);
    }
    forall p: nat | FirstAt(s, pat, p)
      ensures Find(s, pat) == Some(p)
    {
      FindIs(s, pat, p);
    }
    if Find(s, pat).Some? {
      assert IsAt(s, Find(s, pat).value, pat);
    }
  }

  // ---------------------------------------------------------------------------
  // What a message says.
  // ---------------------------------------------------------------------------

  predicate Spaces(t: string) {
    forall i :: 0 <= i < |t| ==> t[i] == ' '
  }

  /**
   After the severity word: identifier, type and text. On a line of its own below the word, for anything but
   information and for information with a debug tag: file, line and process.
   */
  lemma BodySays(r: Source)
    ensures exists indent: string ::
              && Spaces(indent) && |indent| == |r.time|
              && Body(r) == ": " + (match r.id
                                    case None => ""
                                    case Some(n) =>
                                      match r.severity
                                      case Info => "I" + n + " "
                                      case Warning => "W" + n + " "
                                      case Error => "E" + n + " "
                                      case Fatal => "F" + n + " ")
                            + r.msgType
                            + (if r.msg == "" then "" else ": " + r.msg)
                            + (if r.severity == Info && Nowhere(r.msg, "DEBUG:") then ""
                               else "\n" + indent + "In file: " + r.file + ":" + r.line
                                    + (match r.process case None => "" case Some(p) => ", process: " + p))
  {
    var indent := seq(|r.time|, i => ' ');
    FindFinds(r.msg, "DEBUG:");
    assert Spaces(indent);
  }

  lemma NamesAre()
    ensures NONWARNINGS == ["DEBUG", "NOTE", "ALERT"]
    ensures INFO_NAMES ==
            ["DATA", "WARNING", "ERROR", "LOGONLY", "DEBUG", "OPTION", "HELP", "NOTE", "ALERT", "ENTER", "LEAVE"]
  {
  }

  lemma TagsAre()
    ensures ": " + NONWARNINGS[0] + ": " == ": DEBUG: "
    ensures ": " + NONWARNINGS[1] + ": " == ": NOTE: "
    ensures ": " + NONWARNINGS[2] + ": " == ": ALERT: "
  {
  }

  /** Errors and fatalities are shown as composed. */
  lemma ErrorsAreShown(r: Source)
    requires r.severity == Error || r.severity == Fatal
    ensures Shown(r) == r.time + (if r.severity == Error then "ERROR" else "FATAL") + Body(r)
    ensures CounterOf(r) == None
  {
  }

  lemma {:induction false} NoTagIsFound(body: string, table: seq<string>, i: nat)
    requires i <= |table| && forall j :: i <= j < |table| ==> Nowhere(body, ": " + table[j] + ": ")
    ensures Classified(body, table, i) == None
    decreases |table| - i
  {
    if i == |table| {
    } else {
      FindFinds(body, ": " + table[i] + ": ");
      NoTagIsFound(body, table, i + 1);
    }
  }

  /** A warning with no tag is shown as composed and counted under no other name. */
  lemma PlainWarningsAreShown(r: Source)
    requires r.severity == Warning && TimePrefix(r.time)
    requires Nowhere(Body(r), ": DEBUG: ") && Nowhere(Body(r), ": NOTE: ") && Nowhere(Body(r), ": ALERT: ")
    ensures Shown(r) == r.time + "WARNING" + Body(r) && CounterOf(r) == None
  {
    TagsAre();
    NoTagIsFound(Body(r), NONWARNINGS, 0);
    WarningForm(r);
  }

  lemma {:induction false} FirstTagIsFound(body: string, table: seq<string>, i: nat, j: nat)
    requires i <= j < |table| && !Nowhere(body, ": " + table[j] + ": ")
    requires forall k :: i <= k < j ==> Nowhere(body, ": " + table[k] + ": ")
    ensures Classified(body, table, i) == Some(j)
    decreases j - i
  {
    FindFinds(body, ": " + table[i] + ": ");
    if i == j {
    } else {
      FirstTagIsFound(body, table, i + 1, j);
    }
  }

  lemma CollapsedAt(body: string, name: string, p: nat)
    requires FirstAt(body, ": " + name + ": ", p)
    ensures !Nowhere(body, ": " + name + ": ")
    ensures Collapsed(body, name) == body[..p] + ": " + body[p + |name| + 4..]
  {
    FindFinds(body, ": " + name + ": ");
  }

  /** The name stands for the severity word, and the tag, first found at p, is a colon and a blank. */
  function Retitled(time: string, name: string, body: string, p: nat): string
    requires p + |name| + 4 <= |body|
  {
    time + name + (body[..p] + ": " + body[p + |name| + 4..])
  }

  lemma RetitledIs(time: string, name: string, body: string, p: nat)
    requires FirstAt(body, ": " + name + ": ", p)
    ensures !Nowhere(body, ": " + name + ": ")
    ensures time + name + Collapsed(body, name) == Retitled(time, name, body, p)
  {
    CollapsedAt(body, name, p);
  }

  lemma WarningIsRetitled(r: Source, j: nat)
    requires r.severity == Warning && TimePrefix(r.time) && Classified(Body(r), NONWARNINGS, 0) == Some(j)
    ensures Shown(r) == r.time + NONWARNINGS[j] + Collapsed(Body(r), NONWARNINGS[j]) && CounterOf(r) == Some(j)
  {
    WarningForm(r);
  }

  /**
   A tagged warning is shown with the name of its tag for the severity word, and the tag left out of the text;
   it is counted under that name. Of several tags, "DEBUG" goes before "NOTE", and "NOTE" before "ALERT".
   */
  lemma TaggedWarningsAreShown(r: Source, name: string, p: nat)
    requires r.severity == Warning && TimePrefix(r.time) && FirstAt(Body(r), ": " + name + ": ", p)
    requires || name == "DEBUG"
             || (name == "NOTE" && Nowhere(Body(r), ": DEBUG: "))
             || (name == "ALERT" && Nowhere(Body(r), ": DEBUG: ") && Nowhere(Body(r), ": NOTE: "))
    ensures Shown(r) == Retitled(r.time, name, Body(r), p)
    ensures CounterOf(r) == Some(match name[0] case 'D' => 0 case 'N' => 1 case _ => 2)
  {
    var j := if name == "DEBUG" then 0 else if name == "NOTE" then 1 else 2;
    TagsAre();
    RetitledIs(r.time, name, Body(r), p);
    FirstTagIsFound(Body(r), NONWARNINGS, 0, j);
    WarningIsRetitled(r, j);
  }

  /** Information with none of the eleven tags is shown as composed, but for an empty type. */
  lemma PlainInformationIsShown(r: Source)
    requires r.severity == Info && TimePrefix(r.time)
    requires forall k :: 0 <= k < |INFO_NAMES| ==> Nowhere(Body(r), ": " + INFO_NAMES[k] + ": ")
    ensures Shown(r) == WithoutRunt(r.time + "INFO" + Body(r)) && CounterOf(r) == None
  {
    InfoForm(r);
    NoTagIsFound(Body(r), INFO_NAMES, 0);
  }

  lemma RetitledInformation(r: Source, j: nat)
    requires r.severity == Info && TimePrefix(r.time) && Classified(Body(r), INFO_NAMES, 0) == Some(j)
    ensures Shown(r) == WithoutRunt(r.time + INFO_NAMES[j] + Collapsed(Body(r), INFO_NAMES[j]))
  {
    InfoForm(r);
  }

  /** Otherwise the first of the tags gives the severity word and is left out of the text. */
  lemma TaggedInformationIsShown(r: Source, j: nat, p: nat)
    requires r.severity == Info && TimePrefix(r.time)
    requires j < |INFO_NAMES| && FirstAt(Body(r), ": " + INFO_NAMES[j] + ": ", p)
    requires forall k :: 0 <= k < j ==> Nowhere(Body(r), ": " + INFO_NAMES[k] + ": ")
    ensures Shown(r) == WithoutRunt(Retitled(r.time, INFO_NAMES[j], Body(r), p)) && CounterOf(r) == None
  {
    RetitledIs(r.time, INFO_NAMES[j], Body(r), p);
    FirstTagIsFound(Body(r), INFO_NAMES, 0, j);
    RetitledInformation(r, j);
  }

  /** The mark of an empty type, where it first stands, shrinks to a colon. */
  lemma RuntIsRemoved(text: string, p: nat)
    ensures FirstAt(text, ": -: ", p) ==> WithoutRunt(text) == text[..p] + ":" + text[p + 5..]
    ensures Nowhere(text, ": -: ") ==> WithoutRunt(text) == text
  {
    FindFinds(text, ": -: ");
  }

  // ---------------------------------------------------------------------------
  // How a shown text starts.
  // ---------------------------------------------------------------------------

  predicate Starts(time: string, word: string, text: string) {
    time + word + ": " <= text
  }

  lemma ColonFirst(time: string, word: string, rest: string)
    requires ": " <= rest
    ensures Starts(time, word, time + word + rest)
  {
    assert rest == ": " + rest[2..];
    assert time + word + rest == time + word + ": " + rest[2..];
  }

  /** Leaving out a tag leaves a colon and a blank after the word. */
  lemma RetitledStarts(time: string, name: string, body: string)
    requires ": " <= body && Find(body, Tag(name)).Some?
    ensures ": " <= Collapsed(body, name)
  {
    var p := Find(body, Tag(name)).value;
    assert Collapsed(body, name) == body[..p] + ": " + body[p + |Tag(name)|..];
    Mismatch(body, 1, Tag(name), 0);
    if p >= 2 {
      assert body[..p][..2] == body[..2] == ": ";
    }
  }

  lemma WarningStarts(r: Source, name: string)
    requires r.severity == Warning && TimePrefix(r.time)
    requires name == match CounterOf(r) case None => "WARNING" case Some(i) => NONWARNINGS[i]
    ensures Starts(r.time, name, Shown(r))
  {
    WarningForm(r);
    match CounterOf(r)
    case None => ColonFirst(r.time, name, Body(r));
    case Some(i) =>
      RetitledStarts(r.time, name, Body(r));
      ColonFirst(r.time, name, Collapsed(Body(r), name));
  }

  /** Time, severity and a colon with a blank; of a warning, the severity it is counted under. */
  lemma TextsStart(r: Source)
    ensures r.severity == Error ==> Starts(r.time, "ERROR", Shown(r))
    ensures r.severity == Fatal ==> Starts(r.time, "FATAL", Shown(r))
    ensures r.severity == Warning && TimePrefix(r.time) ==>
              match CounterOf(r)
              case None => Starts(r.time, "WARNING", Shown(r))
              case Some(i) => Starts(r.time, if i == 0 then "DEBUG" else if i == 1 then "NOTE" else "ALERT", Shown(r))
  {
    if r.severity == Error {
      ColonFirst(r.time, "ERROR", Body(r));
    } else if r.severity == Fatal {
      ColonFirst(r.time, "FATAL", Body(r));
    } else if r.severity == Warning && TimePrefix(r.time) {
      WarningStarts(r, match CounterOf(r) case None => "WARNING" case Some(i) => NONWARNINGS[i]);
    }
  }

  lemma IsAtLeft(left: string, right: string, q: nat, pat: string)
    requires q + |pat| <= |left|
    ensures IsAt(left + right, q, pat) <==> IsAt(left, q, pat)
  {
  }

  /** No runt begins before the end of the severity word. */
  lemma RuntIsPastWord(time: string, word: string, rest: string, q: nat)
    requires Nowhere(time, ": -: ") && word != "" && Capital(word[0]) && ':' !in word && q < |time| + |word|
    ensures !IsAt(time + word + rest, q, ": -: ")
  {
    var text, runt := time + word + rest, ": -: ";
    if q >= |time| {
      assert text[q + 0] == word[q - |time|] != runt[0];
    } else if q + 5 > |time| {
      var k := |time| - q;
      assert text[q + k] == word[0] != runt[k];
    } else {
      assert text == time + (word + rest);
      IsAtLeft(time, word + rest, q, runt);
    }
  }

  lemma RuntKeepsStart(time: string, word: string, rest: string)
    requires Nowhere(time, ": -: ") && word != "" && Capital(word[0]) && ':' !in word && ": " <= rest
    ensures time + word + ":" <= WithoutRunt(time + word + rest)
  {
    var text := time + word + rest;
    ColonFirst(time, word, rest);
    FindFinds(text, ": -: ");
    match Find(text, ": -: ")
    case None =>
    case Some(p) =>
      if p < |time| + |word| {
        RuntIsPastWord(time, word, rest, p);
        assert false;
      }
      RuntIsRemoved(text, p);
      assert text[..|time| + |word|] == time + word;
      if p > |time| + |word| {
        assert text[..p][..|time| + |word| + 1] == time + word + ":";
      }
  }

  lemma PlainInformationStarts(r: Source)
    requires r.severity == Info && TimePrefix(r.time) && Nowhere(r.time, ": -: ")
    requires Classified(Body(r), INFO_NAMES, 0) == None
    ensures r.time + "INFO" + ":" <= Shown(r)
  {
    InfoForm(r);
    RuntKeepsStart(r.time, "INFO", Body(r));
  }

  lemma TaggedInformationStarts(time: string, name: string, body: string)
    requires Nowhere(time, ": -: ") && Distinct("INFO", name) && ':' !in name
    requires ": " <= body && Find(body, Tag(name)).Some?
    ensures time + name + ":" <= WithoutRunt(time + name + Collapsed(body, name))
  {
    RetitledStarts(time, name, body);
    RuntKeepsStart(time, name, Collapsed(body, name));
  }

  lemma InfoNamesAreWords(j: nat)
    requires j < |INFO_NAMES|
    ensures Distinct("INFO", INFO_NAMES[j]) && ':' !in INFO_NAMES[j]
  {
    TablesAreDistinct();
  }

  lemma RetitledInformationStarts(r: Source, name: string)
    requires Nowhere(r.time, ": -: ") && Distinct("INFO", name) && ':' !in name && Find(Body(r), Tag(name)).Some?
    requires Shown(r) == WithoutRunt(r.time + name + Collapsed(Body(r), name))
    ensures r.time + name + ":" <= Shown(r)
  {
    assert Body(r) == ": " + Body(r)[2..];
    TaggedInformationStarts(r.time, name, Body(r));
  }

  /** Information starts with the time and a name for its severity, then a colon; the blank may go with an empty type. */
  lemma InformationStarts(r: Source, j: nat)
    requires r.severity == Info && TimePrefix(r.time) && Nowhere(r.time, ": -: ")
    requires Classified(Body(r), INFO_NAMES, 0) == Some(j)
    ensures r.time + INFO_NAMES[j] + ":" <= Shown(r)
  {
    RetitledInformation(r, j);
    InfoNamesAreWords(j);
    RetitledInformationStarts(r, INFO_NAMES[j]);
  }

  /** What stands before a message while no simulation runs, or after it, or at a time of the simulation. */
  lemma TimesArePrefixes(t: string)
    requires forall i :: 0 <= i < |t| ==> '0' <= t[i] <= '9' || 'a' <= t[i] <= 'z' || t[i] in " .:!-+"
    ensures TimePrefix(t) && TimePrefix("- s: ") && TimePrefix("! s: ")
  {
  }

  // ---------------------------------------------------------------------------
  // What is counted.
  // ---------------------------------------------------------------------------

  /** The warnings whose first tag in the order of the names is name j. */
  function Tagged(es: seq<Event>, j: nat): nat
    requires j < 3
  {
    if es == [] then 0
    else
      var e := es[|es| - 1];
      Tagged(es[..|es| - 1], j)
      + if e.Reported? && e.r.severity == Warning && Classified(Body(e.r), ["DEBUG", "NOTE", "ALERT"], 0) == Some(j)
        then 1 else 0
  }

  lemma CountOne(c: Counts, e: Event, j: nat)
    requires |c.renamed| == 3 && j < 3 && (e.Reported? ==> TimePrefix(e.r.time))
    ensures |Count(c, e).renamed| == 3
    ensures Count(c, e).renamed[j] == c.renamed[j] +
            if e.Reported? && e.r.severity == Warning && Classified(Body(e.r), ["DEBUG", "NOTE", "ALERT"], 0) == Some(j)
            then 1 else 0
  {
    if e.Reported? && e.r.severity == Warning {
      WarningForm(e.r);
      assert NONWARNINGS == ["DEBUG", "NOTE", "ALERT"];
    }
  }

  /** Each counter is the number of warnings with its tag. */
  lemma {:induction false} CountersByName(es: seq<Event>, j: nat)
    requires Timed(es) && j < 3
    ensures |AfterEvents(es).renamed| == 3 && AfterEvents(es).renamed[j] == Tagged(es, j)
  {
    if es == [] {
    } else {
      CountersByName(es[..|es| - 1], j);
      CountOne(AfterEvents(es[..|es| - 1]), es[|es| - 1], j);
    }
  }

  lemma ListOfThree(counts: seq<nat>)
    requires |counts| == 3
    ensures Listed(counts, NONWARNINGS, 0) ==
            (if counts[0] == 0 then [] else [(counts[0], "DEBUG")])
            + (if counts[1] == 0 then [] else [(counts[1], "NOTE")])
            + (if counts[2] == 0 then [] else [(counts[2], "ALERT")])
  {
    assert Listed(counts, NONWARNINGS, 3) == [];
    assert Listed(counts, NONWARNINGS, 2) == if counts[2] == 0 then [] else [(counts[2], "ALERT")];
    assert Listed(counts, NONWARNINGS, 1) ==
           (if counts[1] == 0 then [] else [(counts[1], "NOTE")]) + Listed(counts, NONWARNINGS, 2);
  }

  /** The summary has a line for each name that was met, with its number, in the order of the names. */
  lemma LinesByName(es: seq<Event>)
    requires Timed(es)
    ensures |AfterEvents(es).renamed| == |NONWARNINGS|
    ensures Listed(AfterEvents(es).renamed, NONWARNINGS, 0) ==
            (if Tagged(es, 0) == 0 then [] else [(Tagged(es, 0), "DEBUG")])
            + (if Tagged(es, 1) == 0 then [] else [(Tagged(es, 1), "NOTE")])
            + (if Tagged(es, 2) == 0 then [] else [(Tagged(es, 2), "ALERT")])
  {
    CountersByName(es, 0);
    CountersByName(es, 1);
    CountersByName(es, 2);
    ListOfThree(AfterEvents(es).renamed);
  }

  /** Both kinds of adjustment add to the expected count, modulo 2^64, and to nothing else. */
  lemma AdjustmentsAdd(c: Counts, n: int)
    ensures Count(c, AdjustExpectedWarnings(n)) == c.(expectedWarnings := (c.expectedWarnings + n) % 0x1_0000_0000_0000_0000)
    ensures Count(c, AdjustUnexpectedWarnings(n)) == c.(expectedWarnings := (c.expectedWarnings + n) % 0x1_0000_0000_0000_0000)
    ensures Count(c, AdjustExpectedErrors(n)) == c.(expectedErrors := (c.expectedErrors + n) % 0x1_0000_0000_0000_0000)
    ensures Count(c, AdjustUnexpectedErrors(n)) == c.(expectedErrors := (c.expectedErrors + n) % 0x1_0000_0000_0000_0000)
  {
    WrapIsRemainder(c.expectedWarnings + n);
    WrapIsRemainder(c.expectedErrors + n);
  }
}
