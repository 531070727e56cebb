/** The words on a lease marker and on a rescue ref.

    A marker is a commit message: a subject naming the plan and the kind, then one trailer a line. A
    rescue ref names the plan, the holder and the tip parked. */
module MarkerText {
  import opened Wrappers
  import opened Numbers

  const CLAIM := "claim"
  const BEAT := "beat"
  const RELEASE := "release"
  const TAKEOVER := "takeover"

  predicate IsKind(kind: string) {
    kind == CLAIM || kind == BEAT || kind == RELEASE || kind == TAKEOVER
  }

  datatype Marker = Marker(kind: string, epoch: int, nonce: string, holder: string, lane: string,
                           session: string, base: string)

  // ----- Text -----

  predicate IsSpace(c: char) {
    c in "\t\n\r \U{b}\U{c}\U{85}\U{a0}\U{1680}\U{2028}\U{2029}\U{202f}\U{205f}\U{3000}" ||
    '\U{2000}' <= c <= '\U{200a}'
  }

  function TrimLeft(s: string): string {
    if s != [] && IsSpace(s[0]) then TrimLeft(s[1..]) else s
  }

  function TrimRight(s: string): string {
    if s != [] && IsSpace(s[|s|-1]) then TrimRight(s[..|s|-1]) else s
  }

  function TrimSpace(s: string): string {
    TrimRight(TrimLeft(s))
  }

  /** Starts and ends, if it is not empty, with something other than space. */
  predicate Trimmed(s: string) {
    s != [] ==> !IsSpace(s[0]) && !IsSpace(s[|s|-1])
  }

  function CutPrefix(s: string, prefix: string): Option<string> {
    if prefix <= s then Some(s[|prefix|..]) else None
  }

  /** What stands before the first c and after it. */
  function Cut(s: string, c: char): Option<(string, string)> {
    if s == [] then None
    else if s[0] == c then Some(("", s[1..]))
    else
      match Cut(s[1..], c)
      case None => None
      case Some(cut) => Some(([s[0]] + cut.0, cut.1))
  }

  lemma {:induction false} CutJoined(a: string, c: char, b: string)
    requires c !in a
    ensures Cut(a + [c] + b, c) == Some((a, b))
  {
    var s := a + [c] + b;
    if a == [] {
      assert s[1..] == b;
    } else {
      assert s[1..] == a[1..] + [c] + b;
      CutJoined(a[1..], c, b);
      assert [a[0]] + a[1..] == a;
    }
  }

  /** strings.Split at newlines. */
  function Lines(s: string): (lines: seq<string>)
    ensures lines != []
  {
    if s == [] then [""]
    else
      var rest := Lines(s[1..]);
      if s[0] == '\n' then [""] + rest else [[s[0]] + rest[0]] + rest[1..]
  }

  lemma {:induction false} LinesJoined(line: string, rest: string)
    requires '\n' !in line
    ensures Lines(line + "\n" + rest) == [line] + Lines(rest)
  {
    var s := line + "\n" + rest;
    if line == [] {
      assert s[1..] == rest;
    } else {
      assert s[1..] == line[1..] + "\n" + rest;
      LinesJoined(line[1..], rest);
      assert [line[0]] + line[1..] == line;
    }
  }

  lemma {:induction false} OneLine(line: string)
    requires '\n' !in line
    ensures Lines(line) == [line]
  {
    if line != [] {
      OneLine(line[1..]);
      assert [line[0]] + line[1..] == line;
    }
  }

  lemma {:induction false} TrimPadded(pad: string, s: string)
    requires Trimmed(s) && forall c | c in pad :: IsSpace(c)
    ensures TrimSpace(pad + s) == s
  {
    if pad == [] {
      assert pad + s == s;
    } else {
      assert (pad + s)[0] == pad[0] && pad[0] in pad;
      assert (pad + s)[1..] == pad[1..] + s;
      TrimPadded(pad[1..], s);
    }
  }

  // ----- Subjects -----

  function Stem(planId: int): string {
    "plan " + Render(planId) + ": "
  }

  function MarkerKind(subject: string, planId: int): Option<string> {
    match CutPrefix(subject, Stem(planId))
    case None => None
    case Some(rest) =>
      if rest == BEAT || rest == RELEASE || rest == TAKEOVER then Some(rest)
      else if rest == CLAIM || CLAIM + " " <= rest then Some(CLAIM)
      else None
  }

  predicate MarkerSubject(subject: string, planId: int) {
    match CutPrefix(subject, Stem(planId))
    case None => false
    case Some(rest) => IsKind(rest)
  }

  lemma StemDiffers(a: int, b: int, s: string)
    requires Stem(a) <= s && Stem(b) <= s
    ensures a == b
  {
    hide Render;
    hide Cut;
    StemCut(a, s);
    StemCut(b, s);
    RenderInjective(a, b);
  }

  lemma StemCut(planId: int, s: string)
    requires Stem(planId) <= s
    ensures |s| >= 5 && Cut(s[5..], ':').Some? && Cut(s[5..], ':').value.0 == Render(planId)
  {
    hide Render;
    hide Cut;
    RenderHasNo(planId, ':');
    var rest := s[5+|Render(planId)|+1..];
    assert s[5..] == Render(planId) + ":" + rest;
    CutJoined(Render(planId), ':', rest);
  }

  lemma RenderHasNo(n: int, c: char)
    requires !IsDigit(c) && c != '-'
    ensures c !in Render(n)
  {
  }

  /** The markers a delete may drop are the four plain subjects; */
  lemma PlainSubjects(subject: string, planId: int)
    ensures MarkerSubject(subject, planId) <==> exists kind :: IsKind(kind) && subject == Stem(planId) + kind
  {
    hide Render;
    if Stem(planId) <= subject {
      assert subject == Stem(planId) + subject[|Stem(planId)|..];
    }
    forall kind | IsKind(kind) && subject == Stem(planId) + kind ensures MarkerSubject(subject, planId) {
      assert subject[|Stem(planId)|..] == kind;
    }
  }

  /** the legacy "claim <slug>" subject reads as a claim and is not one of them, and nothing else differs. */
  lemma LegacySubjects(subject: string, planId: int)
    ensures MarkerKind(subject, planId).Some? && !MarkerSubject(subject, planId) <==>
            Stem(planId) + CLAIM + " " <= subject
    ensures MarkerSubject(subject, planId) ==> MarkerKind(subject, planId).Some?
    ensures Stem(planId) + CLAIM + " " <= subject ==> MarkerKind(subject, planId) == Some(CLAIM)
  {
    hide Render;
    var stem := Stem(planId);
    hide Stem;
    if stem + CLAIM + " " <= subject {
      assert stem <= subject;
      assert subject[|stem|..][..6] == CLAIM + " ";
    }
    if stem <= subject && CLAIM + " " <= subject[|stem|..] {
      NotAKind(subject[|stem|..]);
    }
  }

  // ----- The scan for work -----

  /** A subject the scan passes over: an empty one, or word for word a marker's. */
  predicate Skipped(subject: string, planId: int) {
    subject == "" || MarkerSubject(subject, planId)
  }

  /** hasWork, over what git log printed. */
  method HasWork(planId: int, out: string) returns (work: bool)
    ensures work <==> exists i :: 0 <= i < |Lines(out)| && !Skipped(Lines(out)[i], planId)
  {
    var lines := Lines(out);
    for i := 0 to |lines|
      invariant forall j | 0 <= j < i :: Skipped(lines[j], planId)
    {
      if lines[i] != "" && !MarkerSubject(lines[i], planId) {
        assert !Skipped(Lines(out)[i], planId);
        return true;
      }
    }
    return false;
  }

  /** git log prints each commit's subject on a line of its own. */
  function Printed(subjects: seq<string>): string {
    if subjects == [] then "" else subjects[0] + "\n" + Printed(subjects[1..])
  }

  lemma {:induction false} LinesPrinted(subjects: seq<string>)
    requires forall s | s in subjects :: '\n' !in s
    ensures Lines(Printed(subjects)) == subjects + [""]
    decreases |subjects|
  {
    if subjects != [] {
      LinesPrinted(subjects[1..]);
      LinesJoined(subjects[0], Printed(subjects[1..]));
      assert subjects == [subjects[0]] + subjects[1..];
    }
  }

  /** So it answers yes exactly when one of the commits has a subject it counts: neither empty, nor one of the
    four plain ones of this plan. */
  lemma WorkIsACountedSubject(subjects: seq<string>, planId: int)
    requires forall s | s in subjects :: '\n' !in s
    ensures var lines := Lines(Printed(subjects));
      (exists i :: 0 <= i < |lines| && !Skipped(lines[i], planId)) <==>
      (exists s :: s in subjects && s != "" && forall kind | IsKind(kind) :: s != Stem(planId) + kind)
  {
    LinesPrinted(subjects);
    var lines := Lines(Printed(subjects));
    hide Stem;
    forall s: string
      ensures !Skipped(s, planId) <==> s != "" && forall kind | IsKind(kind) :: s != Stem(planId) + kind
    {
      PlainSubjects(s, planId);
    }
    assert Skipped("", planId);
    hide Skipped;
    hide IsKind;
    if i :| 0 <= i < |lines| && !Skipped(lines[i], planId) {
      assert lines[i] in subjects;
    }
    forall s | s in subjects && !Skipped(s, planId) ensures exists i :: 0 <= i < |lines| && !Skipped(lines[i], planId) {
      var i :| 0 <= i < |subjects| && subjects[i] == s;
      assert lines[i] == s;
    }
  }

  lemma NotAKind(rest: string)
    requires CLAIM + " " <= rest
    ensures !IsKind(rest)
  {
    assert rest[0] == 'c' && rest[5] == ' ';
  }

  // ----- Writing a marker -----

  function Dashed(s: string): string {
    if s == "" then "-" else s
  }

  function Line(key: string, pad: string, val: string): string {
    key + ":" + pad + val
  }

  lemma LineIsOne(key: string, pad: string, val: string)
    requires '\n' !in key && '\n' !in pad && '\n' !in val
    ensures '\n' !in Line(key, pad, val)
  {
  }

  function LeaseMessage(kind: string, planId: int, epoch: int, nonce: string, holder: string, lane: string,
                        session: string, base: string): string
  {
    Stem(planId) + kind + "\n" + ("\n" + Trailers(epoch, nonce, holder, lane, session, base))
  }

  function Trailers(epoch: int, nonce: string, holder: string, lane: string, session: string, base: string): string {
    Line("epoch", "   ", Render(epoch)) + "\n" +
    (Line("nonce", "   ", nonce) + "\n" +
     (Line("holder", "  ", holder) + "\n" +
      (Line("lane", "    ", Dashed(lane)) + "\n" + SessionOn(session, base))))
  }

  function SessionOn(session: string, base: string): string {
    Line("session", " ", Dashed(session)) + if base != "" then "\n" + Line("base", "    ", base) else ""
  }

  // ----- Reading one -----

  /** One trailer read into the marker; a line of another key, or of none, changes nothing. */
  function Field(m: Marker, line: string): Marker {
    match Cut(line, ':')
    case None => m
    case Some(cut) =>
      var key, val := TrimSpace(cut.0), TrimSpace(cut.1);
      if key == "epoch" then
        (match ParseInt(val) case Some(n) => m.(epoch := n) case None => m)
      else if key == "nonce" then m.(nonce := val)
      else if key == "holder" then m.(holder := val)
      else if key == "lane" then m.(lane := val)
      else if key == "session" then m.(session := val)
      else if key == "base" then m.(base := val)
      else m
  }

  function Fields(m: Marker, lines: seq<string>): Marker
    decreases |lines|
  {
    if lines == [] then m else Fields(Field(m, lines[0]), lines[1..])
  }

  function Parsed(planId: int, body: string): Option<Marker> {
    match MarkerKind(Lines(body)[0], planId)
    case None => None
    case Some(kind) =>
      var m := Fields(Marker(kind, 0, "", "", "", "", ""), Lines(body)[1..]);
      if m.nonce == "" then None else Some(m)
  }

  /** parseMarker. */
  method ParseMarker(planId: int, body: string) returns (r: Option<Marker>)
    ensures r == Parsed(planId, body)
  {
    var lines := Lines(body);
    var kind := MarkerKind(lines[0], planId);
    if kind.None? {
      return None;
    }
    var m := Marker(kind.value, 0, "", "", "", "", "");
    ghost var goal := Fields(m, lines[1..]);
    for i := 1 to |lines|
      invariant goal == Fields(m, lines[i..])
    {
      assert lines[i..][0] == lines[i] && lines[i..][1..] == lines[i+1..];
      var cut := Cut(lines[i], ':');
      if cut.Some? {
        var val := TrimSpace(cut.value.1);
        match TrimSpace(cut.value.0) {
          case "epoch" =>
            var n := ParseInt(val);
            if n.Some? { m := m.(epoch := n.value); }
          case "nonce" => m := m.(nonce := val);
          case "holder" => m := m.(holder := val);
          case "lane" => m := m.(lane := val);
          case "session" => m := m.(session := val);
          case "base" => m := m.(base := val);
          case _ =>
        }
      }
    }
    if m.nonce == "" {
      return None;
    }
    return Some(m);
  }

  // ----- Round trip -----

  /** A field no newline breaks and no trimming shortens. */
  predicate Plain(s: string) {
    '\n' !in s && Trimmed(s)
  }

  lemma FieldReads(m: Marker, key: string, pad: string, val: string)
    requires ':' !in key && Trimmed(key) && Trimmed(val) && forall c | c in pad :: IsSpace(c)
    ensures Cut(key + ":" + pad + val, ':') == Some((key, pad + val))
    ensures TrimSpace(key) == key && TrimSpace(pad + val) == val
  {
    assert key + ":" + pad + val == key + ":" + (pad + val);
    CutJoined(key, ':', pad + val);
    TrimPadded("", key);
    assert "" + key == key;
    TrimPadded(pad, val);
  }

  lemma SessionLines(session: string, base: string)
    requires Plain(session) && Plain(base)
    ensures Lines(SessionOn(session, base)) ==
            [Line("session", " ", Dashed(session))] + if base != "" then [Line("base", "    ", base)] else []
  {
    var s := Line("session", " ", Dashed(session));
    if base != "" {
      OneLine(Line("base", "    ", base));
      LinesJoined(s, Line("base", "    ", base));
      assert SessionOn(session, base) == s + "\n" + Line("base", "    ", base);
    } else {
      OneLine(s);
      assert SessionOn(session, base) == s;
    }
  }

  lemma TrailerLines(epoch: int, nonce: string, holder: string, lane: string, session: string, base: string)
    requires Plain(nonce) && Plain(holder) && Plain(lane) && Plain(session) && Plain(base)
    ensures Lines(Trailers(epoch, nonce, holder, lane, session, base)) ==
            [Line("epoch", "   ", Render(epoch)), Line("nonce", "   ", nonce), Line("holder", "  ", holder),
             Line("lane", "    ", Dashed(lane)), Line("session", " ", Dashed(session))] +
            if base != "" then [Line("base", "    ", base)] else []
  {
    hide Line;
    hide Lines;
    hide Render;
    RenderHasNo(epoch, '\n');
    SessionLines(session, base);
    LineIsOne("lane", "    ", Dashed(lane));
    LineIsOne("holder", "  ", holder);
    LineIsOne("nonce", "   ", nonce);
    LineIsOne("epoch", "   ", Render(epoch));
    var t1 := Line("lane", "    ", Dashed(lane)) + "\n" + SessionOn(session, base);
    LinesJoined(Line("lane", "    ", Dashed(lane)), SessionOn(session, base));
    var t2 := Line("holder", "  ", holder) + "\n" + t1;
    LinesJoined(Line("holder", "  ", holder), t1);
    var t3 := Line("nonce", "   ", nonce) + "\n" + t2;
    LinesJoined(Line("nonce", "   ", nonce), t2);
    LinesJoined(Line("epoch", "   ", Render(epoch)), t3);
  }

  lemma MessageLines(kind: string, planId: int, epoch: int, nonce: string, holder: string, lane: string,
                     session: string, base: string)
    requires IsKind(kind) && Plain(nonce) && Plain(holder) && Plain(lane) && Plain(session) && Plain(base)
    ensures Lines(LeaseMessage(kind, planId, epoch, nonce, holder, lane, session, base)) ==
            [Stem(planId) + kind, ""] + Lines(Trailers(epoch, nonce, holder, lane, session, base))
  {
    hide Lines;
    hide Trailers;
    hide Render;
    RenderHasNo(planId, '\n');
    var trailers := Trailers(epoch, nonce, holder, lane, session, base);
    LinesJoined("", trailers);
    assert "" + "\n" + trailers == "\n" + trailers;
    LinesJoined(Stem(planId) + kind, "\n" + trailers);
  }

  lemma KeyIsTrimmed(key: string)
    requires key in ["epoch", "nonce", "holder", "lane", "session", "base"]
    ensures ':' !in key && Trimmed(key)
  {
    forall c | 'a' <= c <= 'z' ensures !IsSpace(c) {}
    hide IsSpace;
  }

  lemma FieldOf(m: Marker, key: string, pad: string, val: string)
    requires key in ["epoch", "nonce", "holder", "lane", "session", "base"]
    requires Trimmed(val) && forall c | c in pad :: IsSpace(c)
    ensures Field(m, Line(key, pad, val)) ==
            (if key == "epoch" then (if ParseInt(val).Some? then m.(epoch := ParseInt(val).value) else m)
             else if key == "nonce" then m.(nonce := val)
             else if key == "holder" then m.(holder := val)
             else if key == "lane" then m.(lane := val)
             else if key == "session" then m.(session := val)
             else m.(base := val))
  {
    hide Cut;
    hide TrimSpace;
    hide ParseInt;
    assert ':' !in key && Trimmed(key) by { KeyIsTrimmed(key); }
    hide Trimmed;
    FieldReads(m, key, pad, val);
  }

  lemma FirstTrailersRead(m: Marker, epoch: int, nonce: string, holder: string, rest: seq<string>)
    requires Int64(epoch) && Plain(nonce) && Plain(holder)
    ensures Fields(m, [Line("epoch", "   ", Render(epoch))] +
                      ([Line("nonce", "   ", nonce)] + ([Line("holder", "  ", holder)] + rest))) ==
            Fields(m.(epoch := epoch, nonce := nonce, holder := holder), rest)
  {
    hide Line;
    hide Field;
    hide Fields;
    hide Render;
    ParseRendered(epoch);
    RenderTrimmed(epoch);
    var m1 := m.(epoch := epoch);
    var m2 := m1.(nonce := nonce);
    FieldOf(m, "epoch", "   ", Render(epoch));
    FieldOf(m1, "nonce", "   ", nonce);
    FieldOf(m2, "holder", "  ", holder);
    FieldsNext(m, Line("epoch", "   ", Render(epoch)),
               [Line("nonce", "   ", nonce)] + ([Line("holder", "  ", holder)] + rest));
    FieldsNext(m1, Line("nonce", "   ", nonce), [Line("holder", "  ", holder)] + rest);
    FieldsNext(m2, Line("holder", "  ", holder), rest);
  }

  lemma LastTrailersRead(m: Marker, lane: string, session: string, base: string)
    requires Plain(lane) && Plain(session) && Plain(base) && m.base == ""
    ensures Fields(m, [Line("lane", "    ", lane)] + ([Line("session", " ", session)] +
                      if base != "" then [Line("base", "    ", base)] else [])) ==
            m.(lane := lane, session := session, base := base)
  {
    hide Line;
    hide Field;
    var m1 := m.(lane := lane);
    var m2 := m1.(session := session);
    var last := if base != "" then [Line("base", "    ", base)] else [];
    FieldOf(m, "lane", "    ", lane);
    FieldOf(m1, "session", " ", session);
    FieldOf(m2, "base", "    ", base);
    FieldsNext(m, Line("lane", "    ", lane), [Line("session", " ", session)] + last);
    FieldsNext(m1, Line("session", " ", session), last);
    if base != "" {
      FieldsNext(m2, last[0], []);
      assert last == [Line("base", "    ", base)] + [];
    }
  }

  /** What a plan's marker says is what is read back from it; a lane or session left empty reads as "-".
      The fields may not hold a newline or start or end in space, and a marker needs its nonce. */
  lemma RoundTrip(kind: string, planId: int, epoch: int, nonce: string, holder: string, lane: string,
                  session: string, base: string)
    requires IsKind(kind) && Int64(epoch)
    requires Plain(nonce) && Plain(holder) && Plain(lane) && Plain(session) && Plain(base)
    ensures Parsed(planId, LeaseMessage(kind, planId, epoch, nonce, holder, lane, session, base)) ==
            if nonce == "" then None
            else Some(Marker(kind, epoch, nonce, holder, Dashed(lane), Dashed(session), base))
  {
    hide Line;
    hide Lines;
    hide LeaseMessage;
    hide Trailers;
    hide Field;
    hide Fields;
    hide Render;
    MessageLines(kind, planId, epoch, nonce, holder, lane, session, base);
    TrailerLines(epoch, nonce, holder, lane, session, base);
    SubjectOf(kind, planId);
    var m0 := Marker(kind, 0, "", "", "", "", "");
    var tail := [Line("lane", "    ", Dashed(lane))] + ([Line("session", " ", Dashed(session))] +
                if base != "" then [Line("base", "    ", base)] else []);
    var list := [Line("epoch", "   ", Render(epoch))] +
                ([Line("nonce", "   ", nonce)] + ([Line("holder", "  ", holder)] + tail));
    BlankLine(m0);
    FieldsNext(m0, "", list);
    FirstTrailersRead(m0, epoch, nonce, holder, tail);
    LastTrailersRead(m0.(epoch := epoch, nonce := nonce, holder := holder), Dashed(lane), Dashed(session), base);
    var lines := Lines(LeaseMessage(kind, planId, epoch, nonce, holder, lane, session, base));
    assert Lines(Trailers(epoch, nonce, holder, lane, session, base)) == list;
    assert lines[1..] == [""] + list;
  }

  lemma SubjectOf(kind: string, planId: int)
    requires IsKind(kind)
    ensures MarkerKind(Stem(planId) + kind, planId) == Some(kind)
  {
    assert (Stem(planId) + kind)[|Stem(planId)|..] == kind;
  }

  /** Another plan's reader takes no such message for its own, whatever the fields hold. */
  lemma OtherPlansRejectIt(kind: string, planId: int, other: int, epoch: int, nonce: string, holder: string,
                           lane: string, session: string, base: string)
    requires IsKind(kind) && other != planId
    ensures Parsed(other, LeaseMessage(kind, planId, epoch, nonce, holder, lane, session, base)) == None
  {
    RenderHasNo(planId, '\n');
    var subject := Stem(planId) + kind;
    var rest := "\n" + Trailers(epoch, nonce, holder, lane, session, base);
    LinesJoined(subject, rest);
    if Stem(other) <= subject { StemDiffers(planId, other, subject); }
  }

  /** A title that is word for word a marker's subject, with no trailers, is not a marker; but the scan for
    work passes over it. */
  lemma BareTitleIsNoMarker(kind: string, planId: int)
    requires IsKind(kind)
    ensures Parsed(planId, Stem(planId) + kind) == None && Skipped(Stem(planId) + kind, planId)
  {
    PlainSubjects(Stem(planId) + kind, planId);
    RenderHasNo(planId, '\n');
    OneLine(Stem(planId) + kind);
  }

  /** A lease minted for no lane reads back as another lane than its own "", so it never counts as this
      lane's own hold. */
  lemma NoLaneIsNotOwn(kind: string, planId: int, epoch: int, nonce: string, holder: string, session: string,
                       base: string)
    requires IsKind(kind) && Int64(epoch) && nonce != ""
    requires Plain(nonce) && Plain(holder) && Plain(session) && Plain(base)
    ensures var r := Parsed(planId, LeaseMessage(kind, planId, epoch, nonce, holder, "", session, base));
            r.Some? && r.value.lane != ""
  {
    RoundTrip(kind, planId, epoch, nonce, holder, "", session, base);
  }

  lemma BlankLine(m: Marker)
    ensures Field(m, "") == m
  {
  }

  lemma FieldsNext(m: Marker, line: string, rest: seq<string>)
    ensures Fields(m, [line] + rest) == Fields(Field(m, line), rest)
  {
    assert ([line] + rest)[1..] == rest;
  }

  lemma RenderTrimmed(n: int)
    ensures Trimmed(Render(n))
  {
    var s := Render(n);
    hide Render;
    assert s[0] in s && s[|s|-1] in s;
    forall c | IsDigit(c) || c == '-' ensures !IsSpace(c) {}
  }

  // ----- Rescue refs -----

  const RESCUE := "refs/frit/rescue/"

  function RescueRef(planId: int, holder: string, tip: string): string {
    RESCUE + Render(planId) + "/" + holder + "-" + tip
  }

  /** The name used before the tip was part of it. */
  function LegacyRescueRef(planId: int, holder: string): string {
    RESCUE + Render(planId) + "/" + holder
  }

  function RescuePlanId(ref: string): Option<int> {
    match CutPrefix(ref, RESCUE)
    case None => None
    case Some(rest) =>
      match Cut(rest, '/')
      case None => None
      case Some(cut) => ParseInt(cut.0)
  }

  lemma RescueCut(planId: int, rest: string)
    ensures Cut(Render(planId) + "/" + rest, '/') == Some((Render(planId), rest))
  {
    RenderHasNo(planId, '/');
    CutJoined(Render(planId), '/', rest);
  }

  /** The plan id is read back from either shape of rescue ref, whatever the holder is called. */
  lemma RescuePlanIdInverts(planId: int, holder: string, tip: string)
    requires Int64(planId)
    ensures RescuePlanId(RescueRef(planId, holder, tip)) == Some(planId)
    ensures RescuePlanId(LegacyRescueRef(planId, holder)) == Some(planId)
  {
    hide Render;
    LegacyPlanIdInverts(planId, holder);
    LegacyPlanIdInverts(planId, holder + "-" + tip);
    assert RescueRef(planId, holder, tip) == LegacyRescueRef(planId, holder + "-" + tip);
  }

  lemma LegacyPlanIdInverts(planId: int, leaf: string)
    requires Int64(planId)
    ensures RescuePlanId(LegacyRescueRef(planId, leaf)) == Some(planId)
  {
    hide Render;
    hide Cut;
    hide ParseInt;
    ParseRendered(planId);
    RescueCut(planId, leaf);
    assert LegacyRescueRef(planId, leaf) == RESCUE + (Render(planId) + "/" + leaf);
    assert LegacyRescueRef(planId, leaf)[|RESCUE|..] == Render(planId) + "/" + leaf;
  }

  /** Two parks share a rescue ref only if they are one plan's, one holder's, one tip. */
  lemma RescueRefInjective(p1: int, h1: string, t1: string, p2: int, h2: string, t2: string)
    requires |t1| == 40 && |t2| == 40 && RescueRef(p1, h1, t1) == RescueRef(p2, h2, t2)
    ensures p1 == p2 && h1 == h2 && t1 == t2
  {
    hide Render;
    var s, s2 := h1 + "-" + t1, h2 + "-" + t2;
    assert RescueRef(p1, h1, t1) == LegacyRescueRef(p1, s) && RescueRef(p2, h2, t2) == LegacyRescueRef(p2, s2);
    LegacyInjective(p1, s, p2, s2);
    assert t1 == s[|s|-40..] && t2 == s[|s|-40..];
    assert h1 == s[..|s|-41] && h2 == s[..|s|-41];
  }

  lemma LegacyInjective(p1: int, leaf1: string, p2: int, leaf2: string)
    requires LegacyRescueRef(p1, leaf1) == LegacyRescueRef(p2, leaf2)
    ensures p1 == p2 && leaf1 == leaf2
  {
    hide Render;
    hide Cut;
    RescueCut(p1, leaf1);
    RescueCut(p2, leaf2);
    assert LegacyRescueRef(p1, leaf1)[|RESCUE|..] == Render(p1) + "/" + leaf1;
    assert LegacyRescueRef(p2, leaf2)[|RESCUE|..] == Render(p2) + "/" + leaf2;
    RenderInjective(p1, p2);
  }

  function Slashes(s: string): nat {
    if s == [] then 0 else (if s[0] == '/' then 1 else 0) + Slashes(s[1..])
  }

  lemma {:induction false} SlashesJoin(a: string, b: string)
    ensures Slashes(a + b) == Slashes(a) + Slashes(b)
  {
    if a == [] {
      assert a + b == b;
    } else {
      assert (a + b)[1..] == a[1..] + b;
      SlashesJoin(a[1..], b);
    }
  }

  lemma {:induction false} NoSlashes(s: string)
    requires '/' !in s
    ensures Slashes(s) == 0
  {
    if s != [] { NoSlashes(s[1..]); }
  }

  /** Every rescue ref, of either shape, sits at one depth, so none is a directory another is in. */
  lemma RescueRefsAreSiblings(p1: int, h1: string, t1: string, p2: int, h2: string, t2: string, below: string)
    requires '/' !in h1 && '/' !in t1 && '/' !in h2 && '/' !in t2
    ensures RescueRef(p1, h1, t1) != RescueRef(p2, h2, t2) + "/" + below
    ensures RescueRef(p1, h1, t1) != LegacyRescueRef(p2, h2) + "/" + below
    ensures LegacyRescueRef(p1, h1) != RescueRef(p2, h2, t2) + "/" + below
  {
    hide Render;
    NotBelow(p1, h1 + "-" + t1, p2, h2 + "-" + t2, below);
    NotBelow(p1, h1 + "-" + t1, p2, h2, below);
    NotBelow(p1, h1, p2, h2 + "-" + t2, below);
    assert RescueRef(p1, h1, t1) == LegacyRescueRef(p1, h1 + "-" + t1);
    assert RescueRef(p2, h2, t2) == LegacyRescueRef(p2, h2 + "-" + t2);
  }

  lemma NotBelow(p1: int, leaf1: string, p2: int, leaf2: string, below: string)
    requires '/' !in leaf1 && '/' !in leaf2
    ensures LegacyRescueRef(p1, leaf1) != LegacyRescueRef(p2, leaf2) + "/" + below
  {
    hide LegacyRescueRef;
    RescueDepth(p1, leaf1);
    RescueDepth(p2, leaf2);
    SlashesJoin(LegacyRescueRef(p2, leaf2) + "/", below);
    SlashesJoin(LegacyRescueRef(p2, leaf2), "/");
    assert Slashes("/") == 1;
  }

  lemma RescueDepth(planId: int, leaf: string)
    requires '/' !in leaf
    ensures Slashes(LegacyRescueRef(planId, leaf)) == Slashes(RESCUE) + 1
  {
    RenderHasNo(planId, '/');
    NoSlashes(Render(planId));
    NoSlashes(leaf);
    SlashesJoin(RESCUE + Render(planId) + "/", leaf);
    SlashesJoin(RESCUE + Render(planId), "/");
    SlashesJoin(RESCUE, Render(planId));
    assert Slashes("/") == 1;
  }
}
