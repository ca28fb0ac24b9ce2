/**
 * The record layout Person::save_pure appends to its output file
 * (Source/person.cpp:182-250), a reader for one such record, and the proof that
 * the reader gives back everything the layout wrote.
 *
 * The text functions carry no contracts of their own: what a proof needs about
 * them (digits only, no separator inside) is stated by lemmas, so that unfolding
 * a whole record does not bring every such fact into every proof.
 */
module PersonText {
  import opened Wrappers
  import opened Persons

  // ------------------------------------------------------------- characters

  /** `s` holds no `c`, stated by recursion so that it brings no quantifier into a proof. */
  predicate Lacks(s: string, c: char)
    decreases |s|
  {
    s == [] || (s[0] != c && Lacks(s[1..], c))
  }

  lemma {:induction false} LacksAppend(a: string, b: string, c: char)
    ensures Lacks(a + b, c) <==> Lacks(a, c) && Lacks(b, c)
  {
    if a != [] {
      assert (a + b)[1..] == a[1..] + b;
      LacksAppend(a[1..], b, c);
    } else {
      assert a + b == b;
    }
  }

  lemma SpacedLacks(a: string, b: string, c: char)
    requires Lacks(a, c) && Lacks(b, c) && c != ' '
    ensures Lacks(a + " " + b, c)
  {
    LacksAppend(a, " ", c);
    LacksAppend(a + " ", b, c);
  }

  predicate IsDigit(c: char) {
    '0' <= c <= '9'
  }

  predicate AllDigits(s: string) {
    forall i | 0 <= i < |s| :: IsDigit(s[i])
  }

  lemma {:induction false} DigitsLack(s: string, c: char)
    requires AllDigits(s) && !IsDigit(c)
    ensures Lacks(s, c)
  {
    if s != [] {
      assert AllDigits(s[1..]);
      DigitsLack(s[1..], c);
    }
  }

  // ---------------------------------------------------------------- numbers

  function DigitChar(d: nat): (c: char)
    requires d < 10
    ensures IsDigit(c)
  {
    ('0' as int + d) as char
  }

  /** The value of a string of decimal digits, leading zeros allowed. */
  function DigitsValue(s: string): nat
    requires AllDigits(s)
  {
    if s == [] then 0
    else DigitsValue(s[..|s| - 1]) * 10 + (s[|s| - 1] as int - '0' as int)
  }

  /** How QTextStream writes a non-negative int: decimal, no leading zeros. */
  function NatText(n: nat): string {
    if n < 10 then [DigitChar(n)] else NatText(n / 10) + [DigitChar(n % 10)]
  }

  /** How QTextStream writes an int. */
  function IntText(i: int): string {
    if i < 0 then "-" + NatText(-i) else NatText(i)
  }

  function ParseNat(s: string): Option<nat> {
    if s != [] && AllDigits(s) then Some(DigitsValue(s)) else None
  }

  function ParseInt(s: string): Option<int> {
    var negative := s != [] && s[0] == '-';
    var digits := if negative then s[1..] else s;
    if digits != [] && AllDigits(digits) then
      var v: int := DigitsValue(digits);
      Some(if negative then -v else v)
    else None
  }

  lemma {:induction false} NatTextValue(n: nat)
    ensures var s := NatText(n); 1 <= |s| && AllDigits(s) && DigitsValue(s) == n
  {
    if n >= 10 {
      NatTextValue(n / 10);
      var s := NatText(n);
      assert s[..|s| - 1] == NatText(n / 10);
    }
  }

  lemma IntTextRoundTrip(i: int)
    ensures ParseInt(IntText(i)) == Some(i)
  {
    if i < 0 {
      NatTextValue(-i);
      var s := IntText(i);
      assert s[0] == '-' && s[1..] == NatText(-i);
    } else {
      NatTextValue(i);
      var s := NatText(i);
      assert IsDigit(s[0]);
    }
  }

  /** Neither a digit nor a minus sign: a character no number text holds. */
  predicate NotInNumber(c: char) {
    !IsDigit(c) && c != '-'
  }

  lemma IntTextLacks(i: int, c: char)
    requires NotInNumber(c)
    ensures Lacks(IntText(i), c)
  {
    if i < 0 {
      NatTextValue(-i);
      DigitsLack(NatText(-i), c);
      LacksAppend("-", NatText(-i), c);
    } else {
      NatTextValue(i);
      DigitsLack(NatText(i), c);
    }
  }

  function Zeros(k: nat): (s: string)
    ensures |s| == k && AllDigits(s)
  {
    seq(k, _ => '0')
  }

  /** QString::number(n).rightJustified(w, '0'): pads, never truncates. */
  function Pad(n: nat, w: nat): string {
    var t := NatText(n);
    Zeros(if |t| < w then w - |t| else 0) + t
  }

  lemma {:induction false} LeadingZerosValue(k: nat, s: string)
    requires AllDigits(s)
    ensures DigitsValue(Zeros(k) + s) == DigitsValue(s)
    decreases k, |s|
  {
    if s == [] {
      if k > 0 {
        assert (Zeros(k) + s)[..k - 1] == Zeros(k - 1) + s;
        LeadingZerosValue(k - 1, s);
      }
    } else {
      assert (Zeros(k) + s)[..|Zeros(k) + s| - 1] == Zeros(k) + s[..|s| - 1];
      LeadingZerosValue(k, s[..|s| - 1]);
    }
  }

  lemma PadValue(n: nat, w: nat)
    ensures var s := Pad(n, w); 1 <= |s| && AllDigits(s) && ParseNat(s) == Some(n)
  {
    var t := NatText(n);
    NatTextValue(n);
    LeadingZerosValue(if |t| < w then w - |t| else 0, t);
  }

  // ------------------------------------------------------------------ dates

  /** "yyyy": at least four digits, a minus sign in front of a negative year. */
  function YearText(year: int): string {
    if year < 0 then "-" + Pad(-year, 4) else Pad(year, 4)
  }

  /** QDate::toString("dd.MM.yyyy"): the empty string for a null or invalid date. */
  function DateText(d: Date): string {
    if IsValidDate(d) then Pad(d.day, 2) + "." + Pad(d.month, 2) + "." + YearText(d.year) else ""
  }

  function ParseDate(s: string): Option<Date> {
    if s == [] then Some(NullDate)
    else
      var parts := Split(s, '.');
      if |parts| != 3 then None
      else
        var day :- ParseNat(parts[0]);
        var month :- ParseNat(parts[1]);
        var year :- ParseInt(parts[2]);
        var d := Day(year, month, day);
        if IsValidDate(d) then Some(d) else None
  }

  /** What a date reads back as: an invalid date is written as "" and reads back null. */
  function Written(d: Date): Date {
    if IsValidDate(d) then d else NullDate
  }

  lemma YearTextValue(year: int)
    ensures ParseInt(YearText(year)) == Some(year)
  {
    if year < 0 {
      PadValue(-year, 4);
      var s := YearText(year);
      assert s[0] == '-' && s[1..] == Pad(-year, 4);
    } else {
      PadValue(year, 4);
      var s := Pad(year, 4);
      assert IsDigit(s[0]);
    }
  }

  lemma YearTextLacks(year: int, c: char)
    requires NotInNumber(c)
    ensures Lacks(YearText(year), c)
  {
    var digits := Pad(if year < 0 then -year else year, 4);
    PadValue(if year < 0 then -year else year, 4);
    DigitsLack(digits, c);
    if year < 0 {
      LacksAppend("-", digits, c);
    }
  }

  lemma DateTextLacks(d: Date, c: char)
    requires NotInNumber(c) && c != '.'
    ensures Lacks(DateText(d), c)
  {
    if IsValidDate(d) {
      var dd, mm := Pad(d.day, 2), Pad(d.month, 2);
      PadValue(d.day, 2);
      PadValue(d.month, 2);
      DigitsLack(dd, c);
      DigitsLack(mm, c);
      YearTextLacks(d.year, c);
      LacksAppend(dd, ".", c);
      LacksAppend(dd + ".", mm, c);
      LacksAppend(dd + "." + mm, ".", c);
      LacksAppend(dd + "." + mm + ".", YearText(d.year), c);
    }
  }

  lemma DateFields(d: Date)
    requires IsValidDate(d)
    ensures Split(DateText(d), '.') == [Pad(d.day, 2), Pad(d.month, 2), YearText(d.year)]
  {
    var dd, mm := Pad(d.day, 2), Pad(d.month, 2);
    PadValue(d.day, 2);
    PadValue(d.month, 2);
    DigitsLack(dd, '.');
    DigitsLack(mm, '.');
    YearTextLacks(d.year, '.');
    SplitThree(dd, mm, YearText(d.year), '.');
  }

  lemma DateRoundTrip(d: Date)
    ensures ParseDate(DateText(d)) == Some(Written(d))
  {
    if IsValidDate(d) {
      DateFields(d);
      PadValue(d.day, 2);
      PadValue(d.month, 2);
      YearTextValue(d.year);
    }
  }

  // ---------------------------------------------------------- fields and lines

  /** The fields of `s` between separators, empty ones included. */
  function Split(s: string, sep: char): (parts: seq<string>)
    ensures 1 <= |parts|
  {
    if s == [] then [[]]
    else
      var rest := Split(s[1..], sep);
      if s[0] == sep then [[]] + rest else [[s[0]] + rest[0]] + rest[1..]
  }

  lemma {:induction false} SplitWhole(a: string, sep: char)
    requires Lacks(a, sep)
    ensures Split(a, sep) == [a]
  {
    if a != [] {
      SplitWhole(a[1..], sep);
      assert [a[0]] + a[1..] == a;
    }
  }

  lemma {:induction false} SplitAfter(a: string, rest: string, sep: char)
    requires Lacks(a, sep)
    ensures Split(a + [sep] + rest, sep) == [a] + Split(rest, sep)
  {
    if a == [] {
      assert (a + [sep] + rest)[1..] == rest;
    } else {
      assert (a + [sep] + rest)[1..] == a[1..] + [sep] + rest;
      SplitAfter(a[1..], rest, sep);
      assert [a[0]] + a[1..] == a;
    }
  }

  /** The text up to the first line break, and what follows it. */
  function TakeLine(s: string): Option<(string, string)> {
    if s == [] then None
    else if s[0] == '\n' then Some(([], s[1..]))
    else
      match TakeLine(s[1..])
      case None => None
      case Some(r) => Some(([s[0]] + r.0, r.1))
  }

  function TakeLines(s: string, n: nat): Option<(seq<string>, string)>
    decreases n
  {
    if n == 0 then Some(([], s))
    else
      var first :- TakeLine(s);
      var more :- TakeLines(first.1, n - 1);
      Some(([first.0] + more.0, more.1))
  }

  /** Each line followed by `endl`. */
  function Unlines(lines: seq<string>): string {
    if lines == [] then [] else lines[0] + "\n" + Unlines(lines[1..])
  }

  predicate NoLineBreaks(lines: seq<string>) {
    forall i | 0 <= i < |lines| :: Lacks(lines[i], '\n')
  }

  lemma {:induction false} TakeLineOf(line: string, rest: string)
    requires Lacks(line, '\n')
    ensures TakeLine(line + "\n" + rest) == Some((line, rest))
  {
    if line == [] {
      assert (line + "\n" + rest)[1..] == rest;
    } else {
      assert (line + "\n" + rest)[1..] == line[1..] + "\n" + rest;
      TakeLineOf(line[1..], rest);
      assert [line[0]] + line[1..] == line;
    }
  }

  lemma {:induction false} TakeLinesOf(lines: seq<string>, rest: string)
    requires NoLineBreaks(lines)
    ensures TakeLines(Unlines(lines) + rest, |lines|) == Some((lines, rest))
  {
    if lines != [] {
      assert Unlines(lines) + rest == lines[0] + "\n" + (Unlines(lines[1..]) + rest);
      TakeLineOf(lines[0], Unlines(lines[1..]) + rest);
      assert NoLineBreaks(lines[1..]);
      TakeLinesOf(lines[1..], rest);
      assert [lines[0]] + lines[1..] == lines;
    } else {
      assert Unlines(lines) + rest == rest;
    }
  }

  lemma {:induction false} UnlinesAppend(a: seq<string>, b: seq<string>)
    ensures Unlines(a + b) == Unlines(a) + Unlines(b)
  {
    if a != [] {
      assert (a + b)[0] == a[0] && (a + b)[1..] == a[1..] + b;
      UnlinesAppend(a[1..], b);
      assert Unlines(a + b) == a[0] + "\n" + Unlines(a[1..] + b);
    } else {
      assert a + b == b;
    }
  }

  // ------------------------------------------------------------ the record

  const INFO_BEGIN: string := "/!info!\\"
  const INFO_END: string := "\\!info!/"

  /** `out << bIsAlive` writes the bool as the int 1 or 0. */
  function AliveText(alive: bool): string {
    if alive then "1" else "0"
  }

  function SexText(s: Sex): string {
    if s == Male then "M" else "F"
  }

  /** The id written for a parent link: the parent's id, or -1 for no parent. */
  function LinkId(link: Option<PersonRef>): int {
    if link.Some? then link.value else -1
  }

  /** Each child id followed by a space. */
  function ChildIdsText(ids: seq<int>): string {
    if ids == [] then [] else IntText(ids[0]) + " " + ChildIdsText(ids[1..])
  }

  function IntTexts(ids: seq<int>): (texts: seq<string>)
    ensures |texts| == |ids|
  {
    if ids == [] then [] else [IntText(ids[0])] + IntTexts(ids[1..])
  }

  /** "x y": `out << m_coord.x() << ' ' << m_coord.y()`. */
  function CoordLine(c: Coord): string {
    c.x + " " + c.y
  }

  /** "alive birth death": the dates in dd.MM.yyyy, even for a living person. */
  function StatusLine(alive: bool, birth: Date, death: Date): string {
    AliveText(alive) + " " + DateText(birth) + " " + DateText(death)
  }

  /** "motherId fatherId". */
  function ParentsLine(motherId: int, fatherId: int): string {
    IntText(motherId) + " " + IntText(fatherId)
  }

  /** "count id id ... ": the number of children, then each child id followed by a space. */
  function ChildrenLine(ids: seq<int>): string {
    IntText(|ids|) + " " + ChildIdsText(ids)
  }

  /** The lines of one record up to and including the info opening marker. */
  function HeadLines(p: Person): (lines: seq<string>)
    ensures |lines| == 10
  {
    [ IntText(p.id),
      CoordLine(p.coord),
      "",
      p.name,
      StatusLine(p.alive, p.birthDate, p.deathDate),
      SexText(p.sex),
      ParentsLine(LinkId(p.mother), LinkId(p.father)),
      ChildrenLine(p.children),
      p.birthPlace,
      INFO_BEGIN ]
  }

  /** The twelve lines save_pure writes for one person; the info text may span lines. */
  function SaveLines(p: Person): seq<string> {
    HeadLines(p) + [p.info, INFO_END]
  }

  function SaveText(p: Person): string {
    Unlines(SaveLines(p))
  }

  /**
   * save_pure(filename): opening the file for appending either fails, and the
   * file is left as it was, or the record is appended to it.
   */
  function SavePure(p: Person, fileOpens: bool, file: string): (r: string)
    ensures !fileOpens ==> r == file
    ensures fileOpens ==> |r| > |file| && r[..|file|] == file
  {
    if fileOpens then file + SaveText(p) else file
  }

  /** What a saved record holds. */
  datatype SavedPerson = SavedPerson(
    id: int, coord: Coord, name: string, alive: bool, birthDate: Date, deathDate: Date,
    sex: Sex, motherId: int, fatherId: int, childIds: seq<int>, birthPlace: string, info: string)

  /** The part of a Person that save_pure writes, as a reader recovers it. */
  function Saved(p: Person): SavedPerson {
    SavedPerson(p.id, p.coord, p.name, p.alive, Written(p.birthDate), Written(p.deathDate),
      p.sex, LinkId(p.mother), LinkId(p.father), p.children, p.birthPlace, p.info)
  }

  function ParseCoord(line: string): Option<Coord> {
    var parts := Split(line, ' ');
    if |parts| == 2 then Some(Coord(parts[0], parts[1])) else None
  }

  function ParseAlive(s: string): Option<bool> {
    if s == "1" then Some(true) else if s == "0" then Some(false) else None
  }

  function ParseSex(s: string): Option<Sex> {
    if s == "M" then Some(Male) else if s == "F" then Some(Female) else None
  }

  function ParseInts(texts: seq<string>): Option<seq<int>> {
    if texts == [] then Some([])
    else
      var first :- ParseInt(texts[0]);
      var more :- ParseInts(texts[1..]);
      Some([first] + more)
  }

  /** "count id id ... ": the count must match the ids that follow. */
  function ParseChildren(line: string): Option<seq<int>> {
    var parts := Split(line, ' ');
    if |parts| < 2 || parts[|parts| - 1] != "" then None
    else
      var count :- ParseInt(parts[0]);
      var ids :- ParseInts(parts[1..|parts| - 1]);
      if count == |ids| then Some(ids) else None
  }

  /** What follows the info text at the end of a record: a line break and the closing marker line. */
  function InfoTail(): string {
    "\n" + INFO_END + "\n"
  }

  /** The info text: everything up to the closing marker that ends the record. */
  function InfoSection(rest: string): Option<string> {
    var tail := InfoTail();
    if |tail| <= |rest| && rest[|rest| - |tail|..] == tail then Some(rest[..|rest| - |tail|]) else None
  }

  /** "alive birth death", the dates possibly empty. */
  function ParseStatus(line: string): Option<(bool, Date, Date)> {
    var fields := Split(line, ' ');
    if |fields| != 3 then None
    else
      var alive :- ParseAlive(fields[0]);
      var birth :- ParseDate(fields[1]);
      var death :- ParseDate(fields[2]);
      Some((alive, birth, death))
  }

  /** "motherId fatherId". */
  function ParseParents(line: string): Option<(int, int)> {
    var fields := Split(line, ' ');
    if |fields| != 2 then None
    else
      var motherId :- ParseInt(fields[0]);
      var fatherId :- ParseInt(fields[1]);
      Some((motherId, fatherId))
  }

  /** The ten lines before the info text. */
  function ReadHead(lines: seq<string>, info: string): Option<SavedPerson> {
    if |lines| != 10 || lines[2] != "" || lines[9] != INFO_BEGIN then None
    else ReadFields(lines[0], lines[1], lines[3], lines[4], lines[5], lines[6], lines[7], lines[8], info)
  }

  /** The fields of a record from its lines; the first failing line makes the whole read fail. */
  function ReadFields(id: string, coord: string, name: string, status: string, sex: string,
                      parents: string, kids: string, place: string, info: string): Option<SavedPerson>
  {
    var id :- ParseInt(id);
    var coord :- ParseCoord(coord);
    var status :- ParseStatus(status);
    var sex :- ParseSex(sex);
    var parents :- ParseParents(parents);
    var kids :- ParseChildren(kids);
    Some(SavedPerson(id, coord, name, status.0, status.1, status.2, sex,
      parents.0, parents.1, kids, place, info))
  }

  /** Reads one record written by save_pure. */
  function LoadText(s: string): Option<SavedPerson> {
    var head :- TakeLines(s, 10);
    var info :- InfoSection(head.1);
    ReadHead(head.0, info)
  }

  // ------------------------------------------------------ reading back each line

  lemma {:induction false} ChildIdsSplit(ids: seq<int>)
    ensures Split(ChildIdsText(ids), ' ') == IntTexts(ids) + [""]
  {
    if ids != [] {
      IntTextLacks(ids[0], ' ');
      assert ChildIdsText(ids) == IntText(ids[0]) + [' '] + ChildIdsText(ids[1..]);
      SplitAfter(IntText(ids[0]), ChildIdsText(ids[1..]), ' ');
      ChildIdsSplit(ids[1..]);
    }
  }

  lemma {:induction false} ChildIdsNoBreak(ids: seq<int>)
    ensures Lacks(ChildIdsText(ids), '\n')
  {
    if ids != [] {
      ChildIdsNoBreak(ids[1..]);
      IntTextLacks(ids[0], '\n');
      LacksAppend(IntText(ids[0]) + " ", ChildIdsText(ids[1..]), '\n');
      LacksAppend(IntText(ids[0]), " ", '\n');
    }
  }

  lemma {:induction false} IntTextsRoundTrip(ids: seq<int>)
    ensures ParseInts(IntTexts(ids)) == Some(ids)
  {
    if ids != [] {
      IntTextRoundTrip(ids[0]);
      assert IntTexts(ids)[1..] == IntTexts(ids[1..]);
      IntTextsRoundTrip(ids[1..]);
      assert [ids[0]] + ids[1..] == ids;
    }
  }

  lemma ChildrenFields(ids: seq<int>)
    ensures Split(ChildrenLine(ids), ' ') == [IntText(|ids|)] + IntTexts(ids) + [""]
  {
    var count, rest := IntText(|ids|), ChildIdsText(ids);
    IntTextLacks(|ids|, ' ');
    assert count + " " + rest == count + [' '] + rest;
    SplitAfter(count, rest, ' ');
    ChildIdsSplit(ids);
  }

  lemma ChildrenRoundTrip(ids: seq<int>)
    ensures ParseChildren(ChildrenLine(ids)) == Some(ids)
  {
    ChildrenFields(ids);
    var parts := Split(ChildrenLine(ids), ' ');
    assert parts[0] == IntText(|ids|) && parts[|parts| - 1] == "";
    assert parts[1..|parts| - 1] == IntTexts(ids);
    IntTextRoundTrip(|ids|);
    IntTextsRoundTrip(ids);
  }

  lemma CoordRoundTrip(c: Coord)
    requires Lacks(c.x, ' ') && Lacks(c.y, ' ')
    ensures ParseCoord(CoordLine(c)) == Some(c)
  {
    SplitAfter(c.x, c.y, ' ');
    SplitWhole(c.y, ' ');
  }

  lemma SplitThree(a: string, b: string, c: string, sep: char)
    requires Lacks(a, sep) && Lacks(b, sep) && Lacks(c, sep)
    ensures Split(a + [sep] + b + [sep] + c, sep) == [a, b, c]
  {
    assert a + [sep] + b + [sep] + c == a + [sep] + (b + [sep] + c);
    SplitAfter(a, b + [sep] + c, sep);
    SplitAfter(b, c, sep);
    SplitWhole(c, sep);
  }

  lemma StatusFields(alive: bool, birth: Date, death: Date)
    ensures Split(StatusLine(alive, birth, death), ' ') == [AliveText(alive), DateText(birth), DateText(death)]
  {
    DateTextLacks(birth, ' ');
    DateTextLacks(death, ' ');
    assert Lacks(AliveText(alive), ' ');
    SplitThree(AliveText(alive), DateText(birth), DateText(death), ' ');
  }

  lemma StatusRoundTrip(alive: bool, birth: Date, death: Date)
    ensures ParseStatus(StatusLine(alive, birth, death)) == Some((alive, Written(birth), Written(death)))
  {
    StatusFields(alive, birth, death);
    DateRoundTrip(birth);
    DateRoundTrip(death);
    assert ParseAlive(AliveText(alive)) == Some(alive);
  }

  lemma ParentsRoundTrip(motherId: int, fatherId: int)
    ensures ParseParents(ParentsLine(motherId, fatherId)) == Some((motherId, fatherId))
  {
    IntTextLacks(motherId, ' ');
    IntTextLacks(fatherId, ' ');
    SplitAfter(IntText(motherId), IntText(fatherId), ' ');
    SplitWhole(IntText(fatherId), ' ');
    IntTextRoundTrip(motherId);
    IntTextRoundTrip(fatherId);
  }

  lemma StatusLineNoBreak(alive: bool, birth: Date, death: Date)
    ensures Lacks(StatusLine(alive, birth, death), '\n')
  {
    DateTextLacks(birth, '\n');
    DateTextLacks(death, '\n');
    SpacedLacks(AliveText(alive), DateText(birth), '\n');
    SpacedLacks(AliveText(alive) + " " + DateText(birth), DateText(death), '\n');
  }

  lemma ParentsLineNoBreak(a: int, b: int)
    ensures Lacks(ParentsLine(a, b), '\n')
  {
    IntTextLacks(a, '\n');
    IntTextLacks(b, '\n');
    SpacedLacks(IntText(a), IntText(b), '\n');
  }

  lemma ChildrenLineNoBreak(ids: seq<int>)
    ensures Lacks(ChildrenLine(ids), '\n')
  {
    IntTextLacks(|ids|, '\n');
    ChildIdsNoBreak(ids);
    SpacedLacks(IntText(|ids|), ChildIdsText(ids), '\n');
  }

  /** The fields whose text must not hold the separators the layout relies on. */
  predicate Saveable(p: Person) {
    && Lacks(p.name, '\n') && Lacks(p.birthPlace, '\n')
    && Lacks(p.coord.x, '\n') && Lacks(p.coord.y, '\n')
    && Lacks(p.coord.x, ' ') && Lacks(p.coord.y, ' ')
  }

  lemma HeadNoBreaks(p: Person)
    requires Saveable(p)
    ensures NoLineBreaks(HeadLines(p))
  {
    IntTextLacks(p.id, '\n');
    SpacedLacks(p.coord.x, p.coord.y, '\n');
    StatusLineNoBreak(p.alive, p.birthDate, p.deathDate);
    ParentsLineNoBreak(LinkId(p.mother), LinkId(p.father));
    ChildrenLineNoBreak(p.children);
    MarkerNoBreak();
    TenLinesNoBreaks(IntText(p.id), CoordLine(p.coord), p.name, StatusLine(p.alive, p.birthDate, p.deathDate),
      SexText(p.sex), ParentsLine(LinkId(p.mother), LinkId(p.father)), ChildrenLine(p.children), p.birthPlace,
      INFO_BEGIN);
  }

  lemma MarkerNoBreak()
    ensures Lacks(INFO_BEGIN, '\n')
  {
  }

  lemma TenLinesNoBreaks(id: string, coord: string, name: string, status: string, sex: string,
                         parents: string, kids: string, place: string, marker: string)
    requires Lacks(id, '\n') && Lacks(coord, '\n') && Lacks(name, '\n') && Lacks(status, '\n')
    requires Lacks(sex, '\n') && Lacks(parents, '\n') && Lacks(kids, '\n') && Lacks(place, '\n')
    requires Lacks(marker, '\n')
    ensures NoLineBreaks([id, coord, "", name, status, sex, parents, kids, place, marker])
  {
  }

  /** The reader of the first ten lines checks the blank line and the info marker, then reads the fields. */
  lemma ReadHeadLines(id: string, coord: string, name: string, status: string, sex: string,
                      parents: string, kids: string, place: string, info: string)
    ensures ReadHead([id, coord, "", name, status, sex, parents, kids, place, INFO_BEGIN], info)
         == ReadFields(id, coord, name, status, sex, parents, kids, place, info)
  {
  }

  /** The reader of the fields, given what each line reads as. */
  lemma ReadHeadOf(id: string, coord: string, name: string, status: string, sex: string,
                   parents: string, kids: string, place: string, info: string, r: SavedPerson)
    requires ParseInt(id) == Some(r.id) && ParseCoord(coord) == Some(r.coord)
    requires name == r.name && place == r.birthPlace && info == r.info
    requires ParseStatus(status) == Some((r.alive, r.birthDate, r.deathDate))
    requires ParseSex(sex) == Some(r.sex)
    requires ParseParents(parents) == Some((r.motherId, r.fatherId))
    requires ParseChildren(kids) == Some(r.childIds)
    ensures ReadFields(id, coord, name, status, sex, parents, kids, place, info) == Some(r)
  {
  }

  lemma HeadRoundTrip(p: Person)
    requires Saveable(p)
    ensures ReadHead(HeadLines(p), p.info) == Some(Saved(p))
  {
    IntTextRoundTrip(p.id);
    CoordRoundTrip(p.coord);
    StatusRoundTrip(p.alive, p.birthDate, p.deathDate);
    assert ParseSex(SexText(p.sex)) == Some(p.sex);
    ParentsRoundTrip(LinkId(p.mother), LinkId(p.father));
    ChildrenRoundTrip(p.children);
    var status, parents := StatusLine(p.alive, p.birthDate, p.deathDate), ParentsLine(LinkId(p.mother), LinkId(p.father));
    ReadHeadOf(IntText(p.id), CoordLine(p.coord), p.name, status, SexText(p.sex), parents,
      ChildrenLine(p.children), p.birthPlace, p.info, Saved(p));
    ReadHeadLines(IntText(p.id), CoordLine(p.coord), p.name, status, SexText(p.sex), parents,
      ChildrenLine(p.children), p.birthPlace, p.info);
  }

  // --------------------------------------------------------------- round trip

  /** The text of a record is its head lines, then the info text and the closing marker line. */
  lemma SaveTextSplit(head: seq<string>, info: string)
    ensures Unlines(head + [info, INFO_END]) == Unlines(head) + (info + InfoTail())
  {
    UnlinesAppend(head, [info, INFO_END]);
    UnlinesPair(info, INFO_END);
  }

  lemma UnlinesPair(a: string, b: string)
    ensures Unlines([a, b]) == a + ("\n" + b + "\n")
  {
    assert [b][1..] == [];
    assert Unlines([b]) == b + "\n" + [];
    assert [a, b][1..] == [b];
    assert Unlines([a, b]) == a + "\n" + (b + "\n");
  }

  /** The info text is everything before the closing marker line. */
  lemma InfoSectionOf(info: string)
    ensures InfoSection(info + InfoTail()) == Some(info)
  {
    var rest := info + InfoTail();
    assert rest[|rest| - |InfoTail()|..] == InfoTail();
    assert rest[..|rest| - |InfoTail()|] == info;
  }

  /** Ten lines without line breaks, then the info section, load as the ten lines read. */
  lemma LoadOf(head: seq<string>, info: string)
    requires |head| == 10 && NoLineBreaks(head)
    ensures LoadText(Unlines(head) + (info + InfoTail())) == ReadHead(head, info)
  {
    TakeLinesOf(head, info + InfoTail());
    InfoSectionOf(info);
  }

  /** Reading back what save_pure wrote for a person yields that person's saved fields. */
  lemma SaveLoadRoundTrip(p: Person)
    requires Saveable(p)
    ensures LoadText(SaveText(p)) == Some(Saved(p))
  {
    SaveTextSplit(HeadLines(p), p.info);
    HeadNoBreaks(p);
    HeadRoundTrip(p);
    LoadOf(HeadLines(p), p.info);
  }

  /** The record save_pure appends reads back as the person's saved fields. */
  lemma SavePureAppendsRecord(p: Person, file: string)
    requires Saveable(p)
    ensures var r := SavePure(p, true, file);
      r[..|file|] == file && LoadText(r[|file|..]) == Some(Saved(p))
  {
    var r := SavePure(p, true, file);
    assert r[|file|..] == SaveText(p);
    SaveLoadRoundTrip(p);
  }
}
