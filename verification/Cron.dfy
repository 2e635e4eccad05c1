/**
  The schedule builder's cron printer and parser (web/src/components/ScheduleBuilder.tsx), on
  strings, and what each of them undoes of the other.
*/
module Cron {
  import opened Prelude
  import opened Strings

  datatype Mode = NoSchedule | Daily | Weekly | Monthly | Custom

  datatype Schedule = Schedule(mode: Mode, time: string, days: seq<string>, dom: string)

  const DAYS := ["Mon", "Tue", "Wed", "Thu", "Fri", "Sat", "Sun"]
  const DAY_CRON := ["1", "2", "3", "4", "5", "6", "0"]

  // ── String operations of the language ────────────────────────────────────────

  /** What `\s` and `trim` take for white space. */
  predicate IsSpace(c: char) {
    var n := c as int;
    || 9 <= n <= 13 || n == 32 || n == 0xa0 || n == 0x1680 || 0x2000 <= n <= 0x200a
    || n == 0x2028 || n == 0x2029 || n == 0x202f || n == 0x205f || n == 0x3000 || n == 0xfeff
  }

  /** Length of the leading run of characters that are no white space, or that are. */
  function Word(s: string): (n: nat)
    ensures n <= |s|
    ensures n < |s| ==> IsSpace(s[n])
  {
    if s == "" || IsSpace(s[0]) then 0 else 1 + Word(s[1..])
  }

  function Blanks(s: string): (n: nat)
    ensures n <= |s|
    ensures s != "" && IsSpace(s[0]) ==> n > 0
  {
    if s == "" || !IsSpace(s[0]) then 0 else 1 + Blanks(s[1..])
  }

  function TrimEnd(s: string): string {
    if s != "" && IsSpace(s[|s| - 1]) then TrimEnd(s[..|s| - 1]) else s
  }

  function Trim(s: string): string { TrimEnd(s[Blanks(s)..]) }

  /** `split(/\s+/)`. */
  function Fields(s: string): seq<string>
    decreases |s|
  {
    var w := Word(s);
    if w == |s| then [s]
    else
      var rest := s[w..];
      [s[..w]] + Fields(rest[Blanks(rest)..])
  }

  /** `split` at a single character. */
  function Split(s: string, c: char): (parts: seq<string>)
    ensures parts != []
    decreases |s|
  {
    match IndexOf(s, c, 0)
    case None => [s]
    case Some(i) => [s[..i]] + Split(s[i + 1..], c)
  }

  function Join(parts: seq<string>, c: char): string {
    if parts == [] then "" else if |parts| == 1 then parts[0] else parts[0] + [c] + Join(parts[1..], c)
  }

  function Find<T(==)>(xs: seq<T>, x: T): (r: Option<nat>)
    ensures r.Some? ==> r.value < |xs| && xs[r.value] == x
    ensures r == None <==> x !in xs
  {
    if xs == [] then None
    else if xs[0] == x then Some(0)
    else
      var r := Find(xs[1..], x);
      if r == None then None else Some(r.value + 1)
  }

  function Or(s: string, otherwise: string): string { if s == "" then otherwise else s }

  /** `padStart(2, '0')`. */
  function Pad(s: string): (r: string)
    ensures r == s <==> |s| >= 2
  {
    if |s| >= 2 then s else if |s| == 1 then ['0'] + s else "00"
  }

  // ── Printer and parser ───────────────────────────────────────────────────────

  /** The entry of `to` at the place `x` has in `from`. */
  function Lookup(from: seq<string>, to: seq<string>, x: string): Option<string> {
    var i := Find(from, x);
    if i.Some? && i.value < |to| then Some(to[i.value]) else None
  }

  function TranslateKnown(from: seq<string>, to: seq<string>, xs: seq<string>): seq<string> {
    if xs == [] then []
    else
      var y := Lookup(from, to, xs[0]);
      (if y.Some? then [y.value] else []) + TranslateKnown(from, to, xs[1..])
  }

  function TranslateAll(from: seq<string>, to: seq<string>, xs: seq<string>): (ys: seq<string>)
    ensures |ys| == |xs|
  {
    if xs == [] then []
    else
      var y := Lookup(from, to, xs[0]);
      [if y.Some? then y.value else ""] + TranslateAll(from, to, xs[1..])
  }

  /** The parser drops a field that is no day; the printer prints an unknown day as nothing. */
  function DayNames(fields: seq<string>): seq<string> { TranslateKnown(DAY_CRON, DAYS, fields) }

  function DayFields(days: seq<string>): seq<string> { TranslateAll(DAYS, DAY_CRON, days) }

  function ParseCron(cron: string): Schedule {
    if cron == "" then Schedule(NoSchedule, "02:00", [], "1")
    else ParseFields(Fields(Trim(cron)))
  }

  function ParseFields(p: seq<string>): Schedule {
    if |p| != 5 then Schedule(Custom, "", [], "")
    else
      var time, dom, dow := Pad(p[1]) + [':'] + Pad(p[0]), p[2], p[4];
      if dom == "*" && dow == "*" then Schedule(Daily, time, [], "")
      else if dom == "*" then Schedule(Weekly, time, DayNames(Split(dow, ',')), "")
      else if dow == "*" then Schedule(Monthly, time, [], dom)
      else Schedule(Custom, time, [], "")
  }

  /** The five fields of a cron line, one space between them. */
  function Line(min: string, hour: string, dom: string, month: string, dow: string): string {
    Join([min, hour, dom, month, dow], ' ')
  }

  function BuildCron(s: Schedule): string {
    if s.mode == NoSchedule then ""
    else
      var parts := Split(Or(s.time, "02:00"), ':');
      var hour, min := Or(parts[0], "2"), if |parts| > 1 then Or(parts[1], "0") else "0";
      match s.mode
      case Daily => Line(min, hour, "*", "*", "*")
      case Weekly => Line(min, hour, "*", "*", Or(Join(DayFields(s.days), ','), "1"))
      case Monthly => Line(min, hour, Or(s.dom, "1"), "*", "*")
      case _ => s.time
  }

  // ── Splitting undoes joining ─────────────────────────────────────────────────

  /** Something that is one field: not empty, without white space. */
  ghost predicate Token(s: string) { s != "" && forall k :: 0 <= k < |s| ==> !IsSpace(s[k]) }

  lemma {:induction false} WordOfToken(t: string, rest: string)
    requires forall k :: 0 <= k < |t| ==> !IsSpace(t[k])
    requires rest != "" ==> IsSpace(rest[0])
    ensures Word(t + rest) == |t|
  {
    if t != "" {
      assert (t + rest)[1..] == t[1..] + rest;
      WordOfToken(t[1..], rest);
    }
  }

  /** Not empty and without blanks at its ends. */
  ghost predicate Trimmed(s: string) { s != "" && !IsSpace(s[0]) && !IsSpace(s[|s| - 1]) }

  lemma FieldsCons(t: string, rest: string)
    requires Token(t) && Trimmed(rest)
    ensures Fields(t + [' '] + rest) == [t] + Fields(rest)
    ensures Trimmed(t + [' '] + rest)
  {
    var s, tail := t + [' '] + rest, [' '] + rest;
    assert s == t + tail;
    WordOfToken(t, tail);
    assert s[|t|..] == tail && s[..|t|] == t;
    assert tail[1..] == rest;
    assert Blanks(rest) == 0;
    assert Blanks(tail) == 1;
  }

  lemma FieldsOfToken(t: string)
    requires Token(t)
    ensures Fields(t) == [t]
  {
  }

  lemma TrimKeeps(s: string)
    requires Trimmed(s)
    ensures Trim(s) == s
  {
  }

  lemma {:induction false} FieldsUndoJoin(ts: seq<string>)
    requires ts != [] && forall k :: 0 <= k < |ts| ==> Token(ts[k])
    ensures Trimmed(Join(ts, ' ')) && Fields(Join(ts, ' ')) == ts
  {
    if |ts| == 1 {
      FieldsOfToken(ts[0]);
    } else {
      FieldsUndoJoin(ts[1..]);
      JoinedFields(ts[0], Join(ts[1..], ' '), ts[1..]);
      assert ts == [ts[0]] + ts[1..];
    }
  }

  lemma JoinedFields(t: string, rest: string, ts: seq<string>)
    requires Token(t) && Trimmed(rest) && Fields(rest) == ts
    ensures Trimmed(t + [' '] + rest) && Fields(t + [' '] + rest) == [t] + ts
  {
    FieldsCons(t, rest);
  }

  /** A line of five tokens is read back as these tokens. */
  lemma FieldsOfLine(min: string, hour: string, dom: string, month: string, dow: string)
    requires Token(min) && Token(hour) && Token(dom) && Token(month) && Token(dow)
    ensures Line(min, hour, dom, month, dow) != ""
    ensures Fields(Trim(Line(min, hour, dom, month, dow))) == [min, hour, dom, month, dow]
  {
    FieldsUndoJoin([min, hour, dom, month, dow]);
    TrimKeeps(Line(min, hour, dom, month, dow));
  }

  lemma SplitCons(t: string, c: char, rest: string)
    requires c !in t
    ensures Split(t + [c] + rest, c) == [t] + Split(rest, c)
  {
    var s := t + [c] + rest;
    assert s[|t|] == c;
    assert s[..|t|] == t && s[|t| + 1..] == rest;
    FirstIndex(s, c, |t|);
  }

  lemma FirstIndex(s: string, c: char, k: nat)
    requires k < |s| && s[k] == c && c !in s[..k]
    ensures IndexOf(s, c, 0) == Some(k)
  {
  }

  lemma SplitOne(t: string, c: char)
    requires c !in t
    ensures Split(t, c) == [t]
  {
  }

  lemma {:induction false} SplitUndoesJoin(parts: seq<string>, c: char)
    requires parts != [] && forall p :: p in parts ==> c !in p
    ensures Split(Join(parts, c), c) == parts
  {
    if |parts| == 1 {
      SplitOne(parts[0], c);
    } else {
      SplitUndoesJoin(parts[1..], c);
      SplitCons(parts[0], c, Join(parts[1..], c));
    }
  }

  lemma {:induction false} JoinUndoesSplit(s: string, c: char)
    ensures Join(Split(s, c), c) == s
    ensures forall p :: p in Split(s, c) ==> c !in p
    decreases |s|
  {
    var i := IndexOf(s, c, 0);
    if i.Some? {
      JoinUndoesSplit(s[i.value + 1..], c);
      assert s[0..i.value] == s[..i.value];
      assert s == s[..i.value] + [c] + s[i.value + 1..];
    } else {
      assert s[0..] == s;
    }
  }

  // ── Days ─────────────────────────────────────────────────────────────────────

  /** Two tables of different entries, for each other. */
  ghost predicate Paired(a: seq<string>, b: seq<string>) {
    && |a| == |b|
    && (forall i, j :: 0 <= i < j < |a| ==> a[i] != a[j])
    && (forall i, j :: 0 <= i < j < |b| ==> b[i] != b[j])
  }

  lemma FindDistinct(xs: seq<string>, i: nat)
    requires i < |xs| && forall a, b :: 0 <= a < b < |xs| ==> xs[a] != xs[b]
    ensures Find(xs, xs[i]) == Some(i)
  {
  }

  lemma LookupBack(a: seq<string>, b: seq<string>, x: string)
    requires Paired(a, b)
    ensures Lookup(a, b, x).Some? <==> x in a
    ensures x in a ==> Lookup(a, b, x).value in b && Lookup(b, a, Lookup(a, b, x).value) == Some(x)
  {
    if x in a {
      FindDistinct(b, Find(a, x).value);
    }
  }

  /** Names that are all known come back from being printed. */
  lemma {:induction false} KnownComeBack(a: seq<string>, b: seq<string>, xs: seq<string>)
    requires Paired(a, b) && forall x :: x in xs ==> x in a
    ensures TranslateKnown(b, a, TranslateAll(a, b, xs)) == xs
    ensures forall y :: y in TranslateAll(a, b, xs) ==> y in b
  {
    if xs != [] {
      LookupBack(a, b, xs[0]);
      KnownComeBack(a, b, xs[1..]);
      assert TranslateAll(a, b, xs)[1..] == TranslateAll(a, b, xs[1..]);
    }
  }

  /** The entries of `xs` that are in `a`. */
  function Recognised(a: seq<string>, xs: seq<string>): seq<string> {
    if xs == [] then [] else (if xs[0] in a then [xs[0]] else []) + Recognised(a, xs[1..])
  }

  lemma {:induction false} RecognisedIsAllIff(a: seq<string>, xs: seq<string>)
    ensures |Recognised(a, xs)| <= |xs|
    ensures forall x :: x in Recognised(a, xs) <==> x in xs && x in a
    ensures Recognised(a, xs) == xs <==> forall x :: x in xs ==> x in a
  {
    if xs != [] {
      RecognisedIsAllIff(a, xs[1..]);
      assert xs == [xs[0]] + xs[1..];
      if xs[0] !in a {
        assert |Recognised(a, xs)| < |xs|;
      }
    }
  }

  lemma TranslateFirst(from: seq<string>, to: seq<string>, x: string, rest: seq<string>)
    requires Lookup(from, to, x).Some?
    ensures TranslateAll(from, to, [x] + rest) == [Lookup(from, to, x).value] + TranslateAll(from, to, rest)
  {
    assert ([x] + rest)[1..] == rest;
  }

  /** Translated and translated back, exactly the recognised entries remain. */
  lemma {:induction false} RecognisedRemain(a: seq<string>, b: seq<string>, xs: seq<string>)
    requires Paired(a, b)
    ensures TranslateAll(b, a, TranslateKnown(a, b, xs)) == Recognised(a, xs)
  {
    if xs != [] {
      RecognisedRemain(a, b, xs[1..]);
      LookupBack(a, b, xs[0]);
      if xs[0] in a {
        var y, rest := Lookup(a, b, xs[0]).value, TranslateKnown(a, b, xs[1..]);
        TranslateFirst(b, a, y, rest);
        assert TranslateKnown(a, b, xs) == [y] + rest;
      } else {
        assert TranslateKnown(a, b, xs) == TranslateKnown(a, b, xs[1..]);
      }
    }
  }

  lemma DayCronIsDistinct()
    ensures |DAY_CRON| == 7 && forall a, b :: 0 <= a < b < 7 ==> DAY_CRON[a] != DAY_CRON[b]
    ensures forall f :: f in DAY_CRON ==> DayField(f)
  {
    assert forall a :: 0 <= a < 7 ==> |DAY_CRON[a]| == 1 && IsDigit(DAY_CRON[a][0]);
  }

  /** What is true of the field of every day. */
  ghost predicate DayField(f: string) { Token(f) && ',' !in f && f[0] != '*' }

  lemma TablesArePaired()
    ensures Paired(DAYS, DAY_CRON) && Paired(DAY_CRON, DAYS)
  {
    DayCronIsDistinct();
    assert forall a, b :: 0 <= a < b < 7 ==> DAYS[a][0] != DAYS[b][0] || DAYS[a][1] != DAYS[b][1];
  }

  predicate Known(days: seq<string>) { forall d :: d in days ==> d in DAYS }

  lemma DaysComeBack(days: seq<string>)
    requires Known(days)
    ensures DayNames(DayFields(days)) == days
    ensures forall f :: f in DayFields(days) ==> DayField(f)
  {
    TablesArePaired();
    DayCronIsDistinct();
    KnownComeBack(DAYS, DAY_CRON, days);
  }

  lemma {:induction false} JoinIsToken(parts: seq<string>, c: char)
    requires parts != [] && !IsSpace(c)
    requires forall p :: p in parts ==> Token(p)
    ensures Token(parts[0]) && Token(Join(parts, c)) && Join(parts, c)[0] == parts[0][0]
  {
    if |parts| > 1 {
      JoinIsToken(parts[1..], c);
    }
  }

  // ── What is printed and what is read ─────────────────────────────────────────

  /** Monday to Saturday are 1 to 6, Sunday is 0, in both directions. */
  lemma DayNumbers()
    ensures Numbered("Mon", "1") && Numbered("Tue", "2") && Numbered("Wed", "3") && Numbered("Thu", "4")
    ensures Numbered("Fri", "5") && Numbered("Sat", "6") && Numbered("Sun", "0")
    ensures forall d :: d in DAYS ==> d in ["Mon", "Tue", "Wed", "Thu", "Fri", "Sat", "Sun"]
  {
    DayIsNumbered(0);
    DayIsNumbered(1);
    DayIsNumbered(2);
    DayIsNumbered(3);
    DayIsNumbered(4);
    DayIsNumbered(5);
    DayIsNumbered(6);
  }

  /** The printer writes the day as this number, and the parser reads the number as this day. */
  ghost predicate Numbered(day: string, number: string) {
    DayFields([day]) == [number] && DayNames([number]) == [day]
  }

  lemma DayIsNumbered(i: nat)
    requires i < 7
    ensures Numbered(DAYS[i], DAY_CRON[i])
  {
    TablesArePaired();
    FindDistinct(DAYS, i);
    FindDistinct(DAY_CRON, i);
    assert [DAYS[i]][1..] == [] && [DAY_CRON[i]][1..] == [];
  }

  /** A line is its fields with one space between them. */
  lemma LineReads(min: string, hour: string, dom: string, month: string, dow: string)
    ensures Line(min, hour, dom, month, dow) == min + " " + (hour + " " + (dom + " " + (month + " " + dow)))
  {
    JoinFirst(month, [dow], ' ');
    JoinFirst(dom, [month, dow], ' ');
    JoinFirst(hour, [dom, month, dow], ' ');
    JoinFirst(min, [hour, dom, month, dow], ' ');
  }

  lemma JoinFirst(first: string, rest: seq<string>, c: char)
    requires rest != []
    ensures Join([first] + rest, c) == first + [c] + Join(rest, c)
  {
    assert ([first] + rest)[1..] == rest;
  }

  /** A padded text ends with the text, has two characters or more, and otherwise zeros in front. */
  lemma PaddedWithZeros(s: string)
    ensures |Pad(s)| == (if |s| >= 2 then |s| else 2) && Pad(s)[|Pad(s)| - |s|..] == s
    ensures forall k :: 0 <= k < |Pad(s)| - |s| ==> Pad(s)[k] == '0'
  {
  }

  lemma TimeIsSplit(h: string, m: string)
    requires ':' !in h && ':' !in m
    ensures Or(h + [':'] + m, "02:00") == h + [':'] + m
    ensures Split(h + [':'] + m, ':') == [h, m]
  {
    SplitCons(h, ':', m);
    SplitOne(m, ':');
  }

  /** What is printed for a time `h`:`m`, down to the defaults for what is left empty. */
  lemma TextIsPrinted(s: Schedule, h: string, m: string, hour: string, min: string)
    requires ':' !in h && ':' !in m && s.time == h + [':'] + m
    requires hour == (if h == "" then "2" else h) && min == (if m == "" then "0" else m)
    ensures s.mode.NoSchedule? ==> BuildCron(s) == ""
    ensures s.mode.Custom? ==> BuildCron(s) == s.time
    ensures s.mode.Daily? ==> BuildCron(s) == Line(min, hour, "*", "*", "*")
    ensures s.mode.Weekly? ==> BuildCron(s) == Line(min, hour, "*", "*", Or(Join(DayFields(s.days), ','), "1"))
    ensures s.mode.Monthly? ==> BuildCron(s) == Line(min, hour, if s.dom == "" then "1" else s.dom, "*", "*")
  {
    TimeIsSplit(h, m);
  }

  /** No day is printed as Monday, known days as their numbers with a comma between them. */
  lemma WeekdaysArePrinted(days: seq<string>)
    requires Known(days)
    ensures Or(Join(DayFields(days), ','), "1") == if days == [] then "1" else Join(DayFields(days), ',')
  {
    if days != [] {
      DowComesBack(days);
    }
  }

  /** Without a time two o'clock is printed. */
  lemma NoTimeIsTwo(s: Schedule)
    requires s.time == ""
    ensures BuildCron(s) == if s.mode.Custom? then "" else BuildCron(s.(time := "02:00"))
  {
  }

  /** What is read from a line of five fields. */
  lemma TextIsRead(min: string, hour: string, dom: string, month: string, dow: string)
    requires Token(min) && Token(hour) && Token(dom) && Token(month) && Token(dow)
    ensures var r := ParseCron(Line(min, hour, dom, month, dow));
            && r.time == Pad(hour) + [':'] + Pad(min)
            && (r.mode.Daily? <==> dom == "*" && dow == "*")
            && (r.mode.Weekly? <==> dom == "*" && dow != "*")
            && (r.mode.Monthly? <==> dom != "*" && dow == "*")
            && (r.mode.Custom? <==> dom != "*" && dow != "*")
            && r.dom == (if r.mode.Monthly? then dom else "")
            && r.days == if r.mode.Weekly? then DayNames(Split(dow, ',')) else []
  {
    LineIsParsed(min, hour, dom, month, dow);
  }

  /** The empty text means no schedule, and a text of more or fewer than five fields one of its own. */
  lemma OtherTexts(cron: string)
    ensures ParseCron("") == Schedule(NoSchedule, "02:00", [], "1")
    ensures ParseCron(cron).mode.NoSchedule? <==> cron == ""
    ensures cron != "" && |Fields(Trim(cron))| != 5 ==> ParseCron(cron) == Schedule(Custom, "", [], "")
  {
  }

  // ── Parsing undoes building ──────────────────────────────────────────────────

  /** A part of a time: not empty, no colon, no white space. */
  ghost predicate TimePart(s: string) { Token(s) && ':' !in s }

  lemma StarIsToken()
    ensures Token("*")
  {
  }

  /** A daily, weekly or monthly schedule at `h`:`m` with known days, or a day of month that is one field. */
  ghost predicate Printable(s: Schedule, h: string, m: string) {
    && TimePart(h) && TimePart(m) && s.time == h + [':'] + m
    && (s.mode.Daily? || s.mode.Weekly? || s.mode.Monthly?)
    && (s.mode.Weekly? ==> s.days != [] && Known(s.days))
    && (s.mode.Monthly? ==> Token(s.dom) && s.dom != "*")
  }

  /**
    Whatever the printer makes of a daily, weekly or monthly schedule, the parser reads back: the
    mode, all known days in their order, the day of month, and the time with both parts padded.
  */
  lemma ParseUndoesBuild(s: Schedule, h: string, m: string)
    requires Printable(s, h, m)
    ensures ParseCron(BuildCron(s))
            == Schedule(s.mode, Pad(h) + [':'] + Pad(m), if s.mode.Weekly? then s.days else [],
                        if s.mode.Monthly? then s.dom else "")
  {
    TextIsPrinted(s, h, m, h, m);
    StarIsToken();
    match s.mode
    case Daily =>
      LineIsParsed(m, h, "*", "*", "*");
    case Monthly =>
      LineIsParsed(m, h, s.dom, "*", "*");
    case Weekly =>
      DowComesBack(s.days);
      LineIsParsed(m, h, "*", "*", Join(DayFields(s.days), ','));
  }

  lemma LineIsParsed(min: string, hour: string, dom: string, month: string, dow: string)
    requires Token(min) && Token(hour) && Token(dom) && Token(month) && Token(dow)
    ensures ParseCron(Line(min, hour, dom, month, dow)) == ParseFields([min, hour, dom, month, dow])
  {
    FieldsOfLine(min, hour, dom, month, dow);
  }

  lemma DowComesBack(days: seq<string>)
    requires days != [] && Known(days)
    ensures var dow := Join(DayFields(days), ',');
            Token(dow) && dow[0] != '*' && DayNames(Split(dow, ',')) == days
  {
    var fields := DayFields(days);
    DaysComeBack(days);
    JoinIsToken(fields, ',');
    SplitUndoesJoin(fields, ',');
  }

  /** The time itself comes back exactly when both parts are at least two characters long, as in HH:MM. */
  lemma TimeComesBackIff(s: Schedule, h: string, m: string)
    requires Printable(s, h, m)
    ensures ParseCron(BuildCron(s)).time == s.time <==> |h| >= 2 && |m| >= 2
  {
    ParseUndoesBuild(s, h, m);
    var back := Pad(h) + [':'] + Pad(m);
    if back == s.time {
      assert |Pad(h)| + |Pad(m)| == |h| + |m|;
    }
  }

  /** Of the lists of known days exactly the empty one is lost: it becomes Monday. */
  lemma DaysComeBackIff(s: Schedule, h: string, m: string)
    requires TimePart(h) && TimePart(m) && s.time == h + [':'] + m
    requires s.mode.Weekly? && Known(s.days)
    ensures ParseCron(BuildCron(s)).mode.Weekly?
    ensures ParseCron(BuildCron(s)).days == s.days <==> s.days != []
  {
    if s.days == [] {
      TextIsPrinted(s, h, m, h, m);
    StarIsToken();
      MondayIsKnown();
      LineIsParsed(m, h, "*", "*", "1");
    } else {
      ParseUndoesBuild(s, h, m);
    }
  }

  lemma MondayIsKnown()
    ensures Token("1") && "1" in DAY_CRON && Split("1", ',') == ["1"] && DayNames(["1"]) != []
  {
    assert DAY_CRON[0] == "1";
    SplitOne("1", ',');
    TablesArePaired();
    LookupBack(DAY_CRON, DAYS, "1");
  }

  /** Of the days of month without white space exactly the empty one and `*` are lost. */
  lemma DomComesBackIff(s: Schedule, h: string, m: string)
    requires TimePart(h) && TimePart(m) && s.time == h + [':'] + m
    requires s.mode.Monthly? && (s.dom == "" || Token(s.dom))
    ensures var back := ParseCron(BuildCron(s));
            back.mode.Monthly? && back.dom == s.dom <==> s.dom != "" && s.dom != "*"
  {
    TextIsPrinted(s, h, m, h, m);
    StarIsToken();
    LineIsParsed(m, h, Or(s.dom, "1"), "*", "*");
  }

  // ── Printing undoes parsing, exactly when ────────────────────────────────────

  /** The parser never looks at the month. */
  lemma MonthIsIgnored(min: string, hour: string, dom: string, a: string, b: string, dow: string)
    requires Token(min) && Token(hour) && Token(dom) && Token(a) && Token(b) && Token(dow)
    ensures ParseCron(Line(min, hour, dom, a, dow)) == ParseCron(Line(min, hour, dom, b, dow))
  {
    FieldsOfLine(min, hour, dom, a, dow);
    FieldsOfLine(min, hour, dom, b, dow);
  }

  /** The weekday field that is printed after parsing `dow`. */
  function Reprinted(dow: string): string { Or(Join(DayFields(DayNames(Split(dow, ','))), ','), "1") }

  lemma ReprintedIsToken(dow: string)
    ensures Reprinted(dow) == Or(Join(Recognised(DAY_CRON, Split(dow, ',')), ','), "1")
    ensures Token(Reprinted(dow))
  {
    var parts := Split(dow, ',');
    var known := Recognised(DAY_CRON, parts);
    TablesArePaired();
    DayCronIsDistinct();
    RecognisedRemain(DAY_CRON, DAYS, parts);
    RecognisedIsAllIff(DAY_CRON, parts);
    MondayIsKnown();
    if known != [] {
      JoinIsToken(known, ',');
    }
  }

  /** A weekday field comes back exactly when the parser knows every part of it. */
  lemma DowComesBackIff(dow: string)
    ensures Reprinted(dow) == dow <==> forall part :: part in Split(dow, ',') ==> part in DAY_CRON
  {
    var parts := Split(dow, ',');
    var known := Recognised(DAY_CRON, parts);
    ReprintedIsToken(dow);
    JoinUndoesSplit(dow, ',');
    RecognisedIsAllIff(DAY_CRON, parts);
    MondayIsKnown();
    if known != [] {
      SplitUndoesJoin(known, ',');
    }
    if known == parts {
      assert Join(known, ',') == dow;
    }
  }

  lemma PadIsToken(s: string)
    requires Token(s)
    ensures Token(Pad(s)) && (':' in Pad(s) <==> ':' in s)
  {
  }

  lemma {:induction false} PartsOfToken(s: string, c: char)
    requires forall k :: 0 <= k < |s| ==> !IsSpace(s[k])
    ensures forall p :: p in Split(s, c) ==> forall k :: 0 <= k < |p| ==> !IsSpace(p[k])
    decreases |s|
  {
    var i := IndexOf(s, c, 0);
    if i.Some? {
      PartsOfToken(s[i.value + 1..], c);
    }
  }

  /** Hour and minute as they are printed after parsing. */
  function HourAgain(min: string, hour: string): string {
    Or(Split(Pad(hour) + [':'] + Pad(min), ':')[0], "2")
  }

  function MinuteAgain(min: string, hour: string): string {
    var parts := Split(Pad(hour) + [':'] + Pad(min), ':');
    if |parts| > 1 then Or(parts[1], "0") else "0"
  }

  lemma PartsOfTime(time: string)
    requires Token(time)
    ensures forall p :: p in Split(time, ':') ==> ':' !in p && (p != "" ==> Token(p))
  {
    JoinUndoesSplit(time, ':');
    PartsOfToken(time, ':');
  }

  lemma TimeIsToken(min: string, hour: string)
    requires Token(min) && Token(hour)
    ensures Token(Pad(hour) + [':'] + Pad(min))
  {
    PadIsToken(hour);
    PadIsToken(min);
  }

  lemma TimeIsReprinted(min: string, hour: string)
    requires Token(min) && Token(hour)
    ensures TimePart(HourAgain(min, hour)) && TimePart(MinuteAgain(min, hour))
  {
    TimeIsToken(min, hour);
    var parts := Split(Pad(hour) + [':'] + Pad(min), ':');
    PartsOfTime(Pad(hour) + [':'] + Pad(min));
    assert TimePart("2") && TimePart("0");
    assert parts[0] in parts && (|parts| > 1 ==> parts[1] in parts);
  }

  lemma PlainTimeIsPadded(min: string, hour: string)
    requires TimePart(min) && TimePart(hour)
    ensures HourAgain(min, hour) == Pad(hour) && MinuteAgain(min, hour) == Pad(min)
  {
    PadIsToken(hour);
    PadIsToken(min);
    TimeIsSplit(Pad(hour), Pad(min));
  }

  /** Minute and hour come back exactly when they are two characters or more without a colon. */
  lemma TimeFieldsComeBackIff(min: string, hour: string)
    requires Token(min) && Token(hour)
    ensures MinuteAgain(min, hour) == min && HourAgain(min, hour) == hour
            <==> |min| >= 2 && |hour| >= 2 && ':' !in min && ':' !in hour
  {
    TimeIsReprinted(min, hour);
    if ':' !in min && ':' !in hour {
      PlainTimeIsPadded(min, hour);
    }
  }

  ghost predicate FiveTokens(f: seq<string>) { |f| == 5 && forall k :: 0 <= k < 5 ==> Token(f[k]) }

  function DowAgain(dow: string): string { if dow == "*" then "*" else Reprinted(dow) }

  /** The fields printed after parsing the fields `f`, unless both days are restricted. */
  function Again(f: seq<string>): seq<string>
    requires |f| == 5
  {
    [MinuteAgain(f[0], f[1]), HourAgain(f[0], f[1]), f[2], "*", DowAgain(f[4])]
  }

  /** The five fields the printer gives back unchanged. */
  ghost predicate ComesBack(f: seq<string>)
    requires |f| == 5
  {
    && f[3] == "*"
    && |f[0]| >= 2 && |f[1]| >= 2 && ':' !in f[0] && ':' !in f[1]
    && (f[4] == "*" || (f[2] == "*" && forall part :: part in Split(f[4], ',') ==> part in DAY_CRON))
  }

  lemma AgainIsTheSameIff(f: seq<string>)
    requires FiveTokens(f) && (f[2] == "*" || f[4] == "*")
    ensures Again(f) == f <==> ComesBack(f)
  {
    TimeFieldsComeBackIff(f[0], f[1]);
    DowComesBackIff(f[4]);
    SameFieldsIff(MinuteAgain(f[0], f[1]), HourAgain(f[0], f[1]), DowAgain(f[4]), f);
  }

  lemma AgainIsTokens(f: seq<string>)
    requires FiveTokens(f)
    ensures FiveTokens(Again(f))
  {
    TimeIsReprinted(f[0], f[1]);
    ReprintedIsToken(f[4]);
    StarIsToken();
  }

  lemma SameFieldsIff(min: string, hour: string, dow: string, f: seq<string>)
    requires |f| == 5
    ensures [min, hour, f[2], "*", dow] == f <==> min == f[0] && hour == f[1] && f[3] == "*" && dow == f[4]
  {
    var g := [min, hour, f[2], "*", dow];
    if g == f {
      assert g[0] == f[0] && g[1] == f[1] && g[3] == f[3] && g[4] == f[4];
    }
  }

  /** What is printed for a text with the fields `f`. */
  function Printed(f: seq<string>): string
    requires |f| == 5
  {
    if f[2] != "*" && f[4] != "*" then Pad(f[1]) + [':'] + Pad(f[0]) else Join(Again(f), ' ')
  }

  lemma FieldsArePrinted(f: seq<string>)
    requires FiveTokens(f)
    ensures BuildCron(ParseFields(f)) == Printed(f)
  {
    var time := Pad(f[1]) + [':'] + Pad(f[0]);
    assert Or(time, "02:00") == time;
    TimesArePrinted(f[0], f[1], ParseFields(f));
  }

  /** The printer splits the parsed time into the two parts named above. */
  lemma TimesArePrinted(min: string, hour: string, s: Schedule)
    requires s.time == Pad(hour) + [':'] + Pad(min)
    ensures s.mode.Daily? ==> BuildCron(s) == Line(MinuteAgain(min, hour), HourAgain(min, hour), "*", "*", "*")
    ensures s.mode.Weekly? ==>
              BuildCron(s) == Line(MinuteAgain(min, hour), HourAgain(min, hour), "*", "*", Or(Join(DayFields(s.days), ','), "1"))
    ensures s.mode.Monthly? ==> BuildCron(s) == Line(MinuteAgain(min, hour), HourAgain(min, hour), Or(s.dom, "1"), "*", "*")
    ensures s.mode.Custom? ==> BuildCron(s) == s.time
  {
    assert Or(s.time, "02:00") == s.time;
  }

  /** Both days restricted: one field is printed for five. */
  lemma CustomIsOneField(f: seq<string>)
    requires FiveTokens(f) && f[2] != "*" && f[4] != "*"
    ensures Fields(Trim(Printed(f))) != f
  {
    var time := Pad(f[1]) + [':'] + Pad(f[0]);
    TimeIsToken(f[0], f[1]);
    TrimKeeps(time);
    FieldsOfToken(time);
  }

  lemma PrintedFieldsAre(f: seq<string>)
    requires FiveTokens(f) && (f[2] == "*" || f[4] == "*")
    ensures Fields(Trim(Printed(f))) == Again(f)
  {
    AgainIsTokens(f);
    FieldsUndoJoin(Again(f));
    TrimKeeps(Join(Again(f), ' '));
  }

  /** All fields of a text without blanks at its ends are tokens. */
  lemma {:induction false} FieldsAreTokens(s: string)
    requires Trimmed(s)
    ensures forall k :: 0 <= k < |Fields(s)| ==> Token(Fields(s)[k])
    decreases |s|
  {
    var w := Word(s);
    WordIsToken(s);
    if w < |s| {
      var rest := s[w..];
      BlanksEnd(rest);
      var next := rest[Blanks(rest)..];
      assert rest[|rest| - 1] == s[|s| - 1];
      assert next[|next| - 1] == s[|s| - 1];
      FieldsAreTokens(next);
    }
  }

  lemma {:induction false} WordIsToken(s: string)
    ensures forall k :: 0 <= k < Word(s) ==> !IsSpace(s[k])
  {
    if s != "" && !IsSpace(s[0]) {
      WordIsToken(s[1..]);
    }
  }

  lemma {:induction false} BlanksEnd(s: string)
    ensures Blanks(s) < |s| ==> !IsSpace(s[Blanks(s)])
    ensures Blanks(s) == |s| > 0 ==> IsSpace(s[|s| - 1])
  {
    if s != "" && IsSpace(s[0]) {
      BlanksEnd(s[1..]);
    }
  }

  lemma TrimEnds(s: string)
    ensures var t := Trim(s); t == "" || (!IsSpace(t[0]) && !IsSpace(t[|t| - 1]))
  {
    BlanksEnd(s);
    TrimEndKeepsStart(s[Blanks(s)..]);
  }

  lemma {:induction false} TrimEndKeepsStart(s: string)
    ensures var t := TrimEnd(s); t == "" || (t[0] == s[0] && !IsSpace(t[|t| - 1]))
  {
    if s != "" && IsSpace(s[|s| - 1]) {
      TrimEndKeepsStart(s[..|s| - 1]);
    }
  }

  /**
    Over all texts whatever: the empty one comes back from parsing and printing, and so do lines of
    five single-spaced fields that name no month, give minute and hour two characters or more and
    no colon, and restrict the weekday not at all, or to days the parser knows with no day of month
    beside them. Nothing else does.
  */
  lemma BuildUndoesParseIff(cron: string)
    ensures var f := Fields(Trim(cron));
            BuildCron(ParseCron(cron)) == cron <==> cron == "" || (|f| == 5 && Join(f, ' ') == cron && ComesBack(f))
  {
    var f := Fields(Trim(cron));
    if cron != "" && |f| == 5 {
      TrimEnds(cron);
      FieldsAreTokens(Trim(cron));
      FieldsArePrinted(f);
      PrintedIsTheTextIff(cron, f);
    }
  }

  lemma PrintedIsTheTextIff(cron: string, f: seq<string>)
    requires f == Fields(Trim(cron)) && FiveTokens(f)
    ensures Printed(f) == cron <==> Join(f, ' ') == cron && ComesBack(f)
  {
    if f[2] != "*" && f[4] != "*" {
      CustomIsOneField(f);
    } else {
      PrintedFieldsAre(f);
      AgainIsTheSameIff(f);
    }
  }

  /** A line of five tokens is such a text, so the condition on its fields is the whole condition. */
  lemma LineComesBackIff(min: string, hour: string, dom: string, month: string, dow: string)
    requires Token(min) && Token(hour) && Token(dom) && Token(month) && Token(dow)
    ensures var line := Line(min, hour, dom, month, dow);
            BuildCron(ParseCron(line)) == line <==> ComesBack([min, hour, dom, month, dow])
  {
    FieldsOfLine(min, hour, dom, month, dow);
    BuildUndoesParseIff(Line(min, hour, dom, month, dow));
  }

  /** Weekdays none of which the parser knows become Monday, whatever they were. */
  lemma UnknownWeekdaysBecomeMonday(min: string, hour: string, dow: string)
    requires TimePart(min) && TimePart(hour) && Token(dow) && dow != "*"
    requires forall part :: part in Split(dow, ',') ==> part !in DAY_CRON
    ensures ParseCron(Line(min, hour, "*", "*", dow)) == Schedule(Weekly, Pad(hour) + [':'] + Pad(min), [], "")
    ensures BuildCron(ParseCron(Line(min, hour, "*", "*", dow))) == Line(Pad(min), Pad(hour), "*", "*", "1")
  {
    StarIsToken();
    LineIsParsed(min, hour, "*", "*", dow);
    TablesArePaired();
    NothingKnown(DAY_CRON, DAYS, Split(dow, ','));
    var s := Schedule(Weekly, Pad(hour) + [':'] + Pad(min), [], "");
    TimesArePrinted(min, hour, s);
    PlainTimeIsPadded(min, hour);
  }

  lemma {:induction false} NothingKnown(a: seq<string>, b: seq<string>, xs: seq<string>)
    requires Paired(a, b) && forall x :: x in xs ==> x !in a
    ensures TranslateKnown(a, b, xs) == []
  {
    if xs != [] {
      LookupBack(a, b, xs[0]);
      NothingKnown(a, b, xs[1..]);
    }
  }

  /** `1-5` is such a field: Monday to Friday is printed as Monday. */
  lemma WorkdaysBecomeMonday(min: string, hour: string)
    requires TimePart(min) && TimePart(hour) && |min| >= 2 && |hour| >= 2
    ensures BuildCron(ParseCron(Line(min, hour, "*", "*", "1-5"))) == Line(min, hour, "*", "*", "1")
  {
    SplitOne("1-5", ',');
    DayCronIsDistinct();
    assert "1-5" !in DAY_CRON by {
      assert |"1-5"| == 3 && forall a :: 0 <= a < 7 ==> |DAY_CRON[a]| == 1;
    }
    assert Token("1-5");
    UnknownWeekdaysBecomeMonday(min, hour, "1-5");
  }
}
