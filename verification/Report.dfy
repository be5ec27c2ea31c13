/** The report handler: messages reclassified by the tag they carry, and what the summary counts. */
module Report {
  import opened Tlmx

  // ---------------------------------------------------------------------------
  // std::string.
  // ---------------------------------------------------------------------------

  /** pat occurs in s at position p. */
  predicate OccursAt(s: string, p: nat, pat: string) {
    p + |pat| <= |s| && s[p..p + |pat|] == pat
  }

  /** find: the first occurrence at or after position i. */
  function FindFrom(s: string, pat: string, i: nat): (r: Option<nat>)
    ensures r.Some? ==> i <= r.value && OccursAt(s, r.value, pat) && forall q :: i <= q < r.value ==> !OccursAt(s, q, pat)
    ensures r.None? ==> forall q :: i <= q ==> !OccursAt(s, q, pat)
    decreases |s| - i
  {
    if i + |pat| > |s| then None
    else if OccursAt(s, i, pat) then Some(i)
    else FindFrom(s, pat, i + 1)
  }

  function Find(s: string, pat: string): Option<nat> {
    FindFrom(s, pat, 0)
  }

  /** replace: n characters from position p on. */
  function Replace(s: string, p: nat, n: nat, with: string): string
    requires p + n <= |s|
  {
    s[..p] + with + s[p + n..]
  }

  /** One wrong character, or the end of s, and pat does not occur there. */
  lemma Mismatch(s: string, p: nat, pat: string, k: nat)
    requires k < |pat| && (p + k < |s| ==> s[p + k] != pat[k])
    ensures !OccursAt(s, p, pat)
  {
    if p + |pat| <= |s| {
      assert s[p..p + |pat|][k] == s[p + k];
    }
  }

  /** The position that find returns is settled by one occurrence with none before it. */
  lemma FindIs(s: string, pat: string, p: nat)
    requires OccursAt(s, p, pat) && forall q :: 0 <= q < p ==> !OccursAt(s, q, pat)
    ensures Find(s, pat) == Some(p)
  {
    match Find(s, pat)
    case None => assert false;
    case Some(r) => assert OccursAt(s, r, pat);
  }

  // ---------------------------------------------------------------------------
  // Composing a message.
  // ---------------------------------------------------------------------------

  datatype Severity = Info | Warning | Error | Fatal

  const GUARD: string := ": "
  const NONWARNINGS: seq<string> := ["DEBUG", "NOTE", "ALERT"]
  const INFO_NAMES: seq<string> :=
    ["DATA", "WARNING", "ERROR", "LOGONLY", "DEBUG", "OPTION", "HELP", "NOTE", "ALERT", "ENTER", "LEAVE"]

  function NameOf(s: Severity): string {
    match s
    case Info => "INFO"
    case Warning => "WARNING"
    case Error => "ERROR"
    case Fatal => "FATAL"
  }

  function Letter(s: Severity): string {
    match s
    case Info => "I"
    case Warning => "W"
    case Error => "E"
    case Fatal => "F"
  }

  /** What a report knows of itself; numbers and the time are already text, and time ends with the guard. */
  datatype Source = Source(
    time: string,
    severity: Severity,
    id: Option<string>,
    msgType: string,
    msg: string,
    file: string,
    line: string,
    process: Option<string>)

  /** Everything after the severity word. */
  function Body(r: Source): string {
    GUARD
    + (match r.id case None => "" case Some(n) => Letter(r.severity) + n + " ")
    + r.msgType
    + (if r.msg != "" then GUARD + r.msg else "")
    + (if !r.severity.Info? || Find(r.msg, "DEBUG:").Some?
       then "\n" + seq(|r.time|, i => ' ') + "In file: " + r.file + ":" + r.line
            + (match r.process case None => "" case Some(p) => ", process: " + p)
       else "")
  }

  function Compose(r: Source): string {
    r.time + NameOf(r.severity) + Body(r)
  }

  // ---------------------------------------------------------------------------
  // Reclassifying it.
  // ---------------------------------------------------------------------------

  function Tag(name: string): string {
    GUARD + name + GUARD
  }

  /** The tag of a table entry is in the message, no earlier than the severity word. */
  predicate Carries(msg: string, name: string, word: Option<nat>) {
    word.Some? && Find(msg, Tag(name)).Some? && word.value <= Find(msg, Tag(name)).value
  }

  /** The first entry, from i on, whose tag the message carries. */
  function FirstTag(msg: string, table: seq<string>, word: Option<nat>, i: nat): (r: Option<nat>)
    requires i <= |table|
    ensures r.Some? ==> i <= r.value < |table| && Carries(msg, table[r.value], word)
    ensures forall j :: i <= j < (if r.Some? then r.value else |table|) ==> !Carries(msg, table[j], word)
    decreases |table| - i
  {
    if i == |table| then None
    else if Carries(msg, table[i], word) then Some(i)
    else FirstTag(msg, table, word, i + 1)
  }

  /** msg with the tag found at p turned into a guard and the word at w into the name: what two replaces make of it. */
  function Renamed(msg: string, word: string, w: nat, name: string, p: nat): string
    requires w + |word| <= p && p + |Tag(name)| <= |msg|
  {
    msg[..w] + name + msg[w + |word|..p] + GUARD + msg[p + |Tag(name)|..]
  }

  /** A tag found right of the start of the severity word is right of its end: the word has no colon. */
  lemma TagIsPastWord(msg: string, word: string, w: nat, name: string, p: nat)
    requires ':' !in word && OccursAt(msg, w, word + GUARD) && OccursAt(msg, p, Tag(name)) && w <= p
    ensures w + |word| <= p
  {
    forall q: nat | w <= q < w + |word|
      ensures !OccursAt(msg, q, Tag(name))
    {
      assert msg[w..w + |word + GUARD|][q - w] == msg[q] == word[q - w];
      Mismatch(msg, q, Tag(name), 0);
    }
  }

  /** The message and the entry used: the first tag carried goes, and its name replaces the severity word. */
  function Reclassified(msg: string, word: string, table: seq<string>): (string, Option<nat>)
    requires ':' !in word
  {
    var w := Find(msg, word + GUARD);
    match FirstTag(msg, table, w, 0)
    case None => (msg, None)
    case Some(i) =>
      var p := Find(msg, Tag(table[i])).value;
      TagIsPastWord(msg, word, w.value, table[i], p);
      (Renamed(msg, word, w.value, table[i], p), Some(i))
  }

  /** The handler's loop over a table. */
  method Reclassify(msg: string, word: string, table: seq<string>) returns (text: string, hit: Option<nat>)
    requires ':' !in word
    ensures (text, hit) == Reclassified(msg, word, table)
  {
    text, hit := msg, None;
    var wordPos := Find(msg, word + GUARD);
    var i := 0;
    while i < |table|
      invariant 0 <= i <= |table|
      invariant text == msg && hit.None?
      invariant FirstTag(msg, table, wordPos, 0) == FirstTag(msg, table, wordPos, i)
    {
      var extd := Tag(table[i]);
      var pos := Find(msg, extd);
      if pos.None? || wordPos.None? || pos.value < wordPos.value {
        i := i + 1;
        continue;
      }
      TagIsPastWord(msg, word, wordPos.value, table[i], pos.value);
      text := Replace(text, pos.value, |extd|, GUARD);
      text := Replace(text, wordPos.value, |word|, table[i]);
      assert text == Renamed(msg, word, wordPos.value, table[i], pos.value);
      return text, Some(i);
    }
  }

  // ---------------------------------------------------------------------------
  // The canonical form.
  // ---------------------------------------------------------------------------

  predicate Capital(c: char) {
    'A' <= c <= 'Z'
  }

  /** "! s: ", "- s: ", and every simulated time: no capital letters, so no severity word and no tag. */
  predicate TimePrefix(t: string) {
    forall i :: 0 <= i < |t| ==> !Capital(t[i])
  }

  /** A table name that cannot be mistaken for the severity word. */
  predicate Distinct(word: string, name: string) {
    word != "" && name != "" && Capital(word[0]) && Capital(name[0]) && name[0] != word[0] && ':' !in word && ' ' !in word
  }

  /** In a composed message the severity word is where it was written. */
  lemma WordIsFirst(time: string, word: string, body: string)
    requires TimePrefix(time) && word != "" && Capital(word[0]) && GUARD <= body
    ensures Find(time + word + body, word + GUARD) == Some(|time|)
  {
    var msg := time + word + body;
    assert msg[|time|..|time| + |word + GUARD|] == word + body[..|GUARD|];
    forall q: nat | q < |time|
      ensures !OccursAt(msg, q, word + GUARD)
    {
      assert msg[q] == time[q] && (word + GUARD)[0] == word[0];
      Mismatch(msg, q, word + GUARD, 0);
    }
    FindIs(msg, word + GUARD, |time|);
  }

  /** No tag begins before the end of the severity word. */
  lemma NoEarlyTag(time: string, word: string, body: string, name: string, q: nat)
    requires TimePrefix(time) && Distinct(word, name) && q < |time| + |word|
    ensures !OccursAt(time + word + body, q, Tag(name))
  {
    var msg := time + word + body;
    assert Tag(name)[0] == ':' && Tag(name)[1] == ' ' && Tag(name)[2] == name[0];
    if q >= |time| {
      assert msg[q] == word[q - |time|];
      Mismatch(msg, q, Tag(name), 0);
    } else if q + 1 == |time| {
      assert msg[q + 1] == word[0];
      Mismatch(msg, q, Tag(name), 1);
    } else {
      assert msg[q + 2] == if q + 2 == |time| then word[0] else time[q + 2];
      Mismatch(msg, q, Tag(name), 2);
    }
  }

  lemma ShiftedOccurrence(left: string, right: string, pat: string, q: nat)
    requires |left| <= q
    ensures OccursAt(left + right, q, pat) <==> OccursAt(right, q - |left|, pat)
  {
    var p := q - |left|;
    if p + |pat| <= |right| {
      assert (left + right)[q..q + |pat|] == right[p..p + |pat|];
    }
  }

  /** Tags are looked for in the body alone. */
  lemma TagIsInBody(time: string, word: string, body: string, name: string)
    requires TimePrefix(time) && Distinct(word, name)
    ensures Find(time + word + body, Tag(name)) ==
            match Find(body, Tag(name)) case None => None case Some(p) => Some(|time| + |word| + p)
  {
    var msg := time + word + body;
    var base := |time| + |word|;
    forall q: nat
      ensures OccursAt(msg, q, Tag(name)) <==> q >= base && OccursAt(body, q - base, Tag(name))
    {
      if q < base {
        NoEarlyTag(time, word, body, name, q);
      } else {
        ShiftedOccurrence(time + word, body, Tag(name), q);
      }
    }
    if Find(body, Tag(name)).Some? {
      FindIs(msg, Tag(name), base + Find(body, Tag(name)).value);
    }
  }

  /** The body with its first tag of this name turned into a guard. */
  function Collapsed(body: string, name: string): string {
    match Find(body, Tag(name))
    case None => body
    case Some(p) => Replace(body, p, |Tag(name)|, GUARD)
  }

  /** The first entry of the table whose tag is in the body. */
  function Classified(body: string, table: seq<string>, i: nat): (r: Option<nat>)
    requires i <= |table|
    ensures r.Some? ==> i <= r.value < |table| && Find(body, Tag(table[r.value])).Some?
    ensures forall j :: i <= j < (if r.Some? then r.value else |table|) ==> Find(body, Tag(table[j])).None?
    decreases |table| - i
  {
    if i == |table| then None
    else if Find(body, Tag(table[i])).Some? then Some(i)
    else Classified(body, table, i + 1)
  }

  lemma {:induction false} CarriedIsInBody(time: string, word: string, body: string, table: seq<string>, i: nat)
    requires TimePrefix(time) && i <= |table| && forall j :: 0 <= j < |table| ==> Distinct(word, table[j])
    ensures FirstTag(time + word + body, table, Some(|time|), i) == Classified(body, table, i)
    decreases |table| - i
  {
    if i == |table| {
    } else {
      TagIsInBody(time, word, body, table[i]);
      CarriedIsInBody(time, word, body, table, i + 1);
    }
  }

  lemma CutAt(msg: string, time: string, word: string, body: string, q: nat, p: nat)
    requires msg == time + word + body && q <= |body| && p == |time| + |word| + q
    ensures p <= |msg| && msg[|time| + |word|..p] == body[..q] && msg[p..] == body[q..]
  {
  }

  lemma CutTime(msg: string, time: string, word: string, body: string)
    requires msg == time + word + body
    ensures msg[..|time|] == time
  {
  }

  lemma Regroup(a: string, b: string, c: string, d: string)
    ensures a + b + c + d == a + (b + c + d)
  {
  }

  lemma RenamedIsCollapsed(msg: string, time: string, word: string, body: string, name: string, p: nat)
    requires msg == time + word + body && Find(body, Tag(name)).Some?
    requires p == |time| + |word| + Find(body, Tag(name)).value
    ensures p + |Tag(name)| <= |msg| && Renamed(msg, word, |time|, name, p) == time + name + Collapsed(body, name)
  {
    var q := Find(body, Tag(name)).value;
    var left, right := body[..q], body[q + |Tag(name)|..];
    CutAt(msg, time, word, body, q, p);
    CutAt(msg, time, word, body, q + |Tag(name)|, p + |Tag(name)|);
    CutTime(msg, time, word, body);
    assert Renamed(msg, word, |time|, name, p) == time + name + left + GUARD + right;
    Regroup(time + name, left, GUARD, right);
  }

  lemma WordAndTag(msg: string, time: string, word: string, body: string, table: seq<string>, i: nat)
    requires TimePrefix(time) && word != "" && Capital(word[0]) && GUARD <= body
    requires forall j :: 0 <= j < |table| ==> Distinct(word, table[j])
    requires msg == time + word + body && Classified(body, table, 0) == Some(i)
    ensures Find(msg, word + GUARD) == Some(|time|)
    ensures FirstTag(msg, table, Some(|time|), 0) == Some(i)
  {
    assert FirstTag(msg, table, Some(|time|), 0) == Some(i) by {
      CarriedIsInBody(time, word, body, table, 0);
    }
    WordIsFirst(time, word, body);
  }

  lemma TagPosition(msg: string, time: string, word: string, body: string, name: string, p: nat)
    requires TimePrefix(time) && Distinct(word, name) && msg == time + word + body
    requires Find(body, Tag(name)).Some? && p == |time| + |word| + Find(body, Tag(name)).value
    ensures Find(msg, Tag(name)) == Some(p)
  {
    TagIsInBody(time, word, body, name);
  }

  lemma ReclassifiedIs(msg: string, word: string, table: seq<string>, w: nat, i: nat, p: nat, text: string)
    requires ':' !in word && Find(msg, word + GUARD) == Some(w)
    requires FirstTag(msg, table, Some(w), 0) == Some(i) && Find(msg, Tag(table[i])) == Some(p)
    requires w + |word| <= p && Renamed(msg, word, w, table[i], p) == text
    ensures Reclassified(msg, word, table) == (text, Some(i))
  {
  }

  lemma CanonicalAt(msg: string, time: string, word: string, body: string, table: seq<string>, i: nat, p: nat)
    requires msg == time + word + body && i < |table| && ':' !in word
    requires Find(msg, word + GUARD) == Some(|time|) && FirstTag(msg, table, Some(|time|), 0) == Some(i)
    requires Find(msg, Tag(table[i])) == Some(p) && Find(body, Tag(table[i])).Some?
    requires p == |time| + |word| + Find(body, Tag(table[i])).value
    ensures Reclassified(msg, word, table) == (time + table[i] + Collapsed(body, table[i]), Some(i))
  {
    RenamedIsCollapsed(msg, time, word, body, table[i], p);
    ReclassifiedIs(msg, word, table, |time|, i, p, time + table[i] + Collapsed(body, table[i]));
  }

  /**
   Of a composed message: the first table name whose tag is in the body takes the place of the severity
   word, that tag collapses to a guard, and everything else is as composed.
   */
  lemma CanonicalForm(time: string, word: string, body: string, table: seq<string>)
    requires TimePrefix(time) && word != "" && Capital(word[0]) && ':' !in word && GUARD <= body
    requires forall j :: 0 <= j < |table| ==> Distinct(word, table[j])
    ensures Reclassified(time + word + body, word, table) ==
            match Classified(body, table, 0)
            case None => (time + word + body, None)
            case Some(i) => (time + table[i] + Collapsed(body, table[i]), Some(i))
  {
    var msg := time + word + body;
    match Classified(body, table, 0)
    case None =>
      CarriedIsInBody(time, word, body, table, 0);
      WordIsFirst(time, word, body);
    case Some(i) =>
      var p := |time| + |word| + Find(body, Tag(table[i])).value;
      WordAndTag(msg, time, word, body, table, i);
      TagPosition(msg, time, word, body, table[i], p);
      CanonicalAt(msg, time, word, body, table, i, p);
  }

  // ---------------------------------------------------------------------------
  // Warnings and notes.
  // ---------------------------------------------------------------------------

  /** The entry of the nonwarnings that a warning is counted under. */
  function Hit(r: Source): (h: Option<nat>)
    ensures h.Some? ==> h.value < |NONWARNINGS|
  {
    Reclassified(Compose(r), "WARNING", NONWARNINGS).1
  }

  lemma TablesAreDistinct()
    ensures forall j :: 0 <= j < |NONWARNINGS| ==> Distinct("WARNING", NONWARNINGS[j])
    ensures forall j :: 0 <= j < |INFO_NAMES| ==> Distinct("INFO", INFO_NAMES[j])
  {
  }

  lemma WarningForm(r: Source)
    requires r.severity.Warning? && TimePrefix(r.time)
    ensures Reclassified(Compose(r), "WARNING", NONWARNINGS) ==
            match Classified(Body(r), NONWARNINGS, 0)
            case None => (Compose(r), None)
            case Some(i) => (r.time + NONWARNINGS[i] + Collapsed(Body(r), NONWARNINGS[i]), Some(i))
  {
    TablesAreDistinct();
    CanonicalForm(r.time, "WARNING", Body(r), NONWARNINGS);
  }

  lemma InfoForm(r: Source)
    requires r.severity.Info? && TimePrefix(r.time)
    ensures Reclassified(Compose(r), "INFO", INFO_NAMES) ==
            match Classified(Body(r), INFO_NAMES, 0)
            case None => (Compose(r), None)
            case Some(i) => (r.time + INFO_NAMES[i] + Collapsed(Body(r), INFO_NAMES[i]), Some(i))
  {
    TablesAreDistinct();
    CanonicalForm(r.time, "INFO", Body(r), INFO_NAMES);
  }

  lemma NoteTagIsThere(r: Source, x: string)
    requires r.msg == "NOTE: " + x
    ensures Find(Body(r), Tag("NOTE")).Some?
  {
    var head := GUARD + (match r.id case None => "" case Some(n) => Letter(r.severity) + n + " ") + r.msgType;
    var p := |head|;
    assert Body(r)[p..p + 2] == GUARD;
    assert Body(r)[p + 2..p + 2 + |r.msg|] == r.msg;
    assert Tag("NOTE") == GUARD + r.msg[..6];
    assert OccursAt(Body(r), p, Tag("NOTE"));
  }

  /** REPORT_NOTE is counted as a note exactly when nothing in it looks like a debug tag. */
  lemma NoteCounts(r: Source, x: string)
    requires r.severity.Warning? && TimePrefix(r.time) && r.msg == "NOTE: " + x
    ensures Hit(r) == (if Find(Body(r), Tag("DEBUG")).None? then Some(1) else Some(0))
  {
    WarningForm(r);
    NoteTagIsThere(r, x);
    assert NONWARNINGS[0] == "DEBUG" && NONWARNINGS[1] == "NOTE";
    assert Classified(Body(r), NONWARNINGS, 0) ==
           if Find(Body(r), Tag("DEBUG")).Some? then Some(0) else Classified(Body(r), NONWARNINGS, 1);
  }
}
