/**
 * The logger's pure rules: which log-file base names `init` accepts, which
 * message types it enables from the stored settings, the level tag and
 * module name of a line, and the decimal rendering of numbers in lines.
 *
 * Message types are the integers Qt gives them: debug 0, warning 1,
 * critical 2, fatal 3, info 4.
 */
module LogNaming {

  const DebugMsg: int := 0
  const WarningMsg: int := 1
  const CriticalMsg: int := 2
  const FatalMsg: int := 3
  const InfoMsg: int := 4

  // ---------------------------------------------------------------------
  // File-name validation
  // ---------------------------------------------------------------------

  datatype NameCheck = NameOk | EmptyName | PathSeparator | InvalidCharacter

  /** The character class `[a-zA-Z0-9._-]`. */
  predicate SafeChar(c: char)
  {
    ('a' <= c <= 'z') || ('A' <= c <= 'Z') || ('0' <= c <= '9') || c == '.' || c == '_' || c == '-'
  }

  predicate DotDotAt(s: string, i: int)
  {
    0 <= i && i + 1 < |s| && s[i] == '.' && s[i + 1] == '.'
  }

  /** Searches for ".." from position `i` on. */
  function FindDotDot(s: string, i: nat): (found: bool)
    ensures found <==> exists j :: i <= j && DotDotAt(s, j)
    decreases |s| - i
  {
    if i + 1 >= |s| then false
    else if s[i] == '.' && s[i + 1] == '.' then assert DotDotAt(s, i); true
    else FindDotDot(s, i + 1)
  }

  /** Checks `SafeChar` on every character from position `i` on. */
  function AllSafe(s: string, i: nat): (ok: bool)
    requires i <= |s|
    ensures ok <==> forall j :: i <= j < |s| ==> SafeChar(s[j])
    decreases |s| - i
  {
    if i == |s| then true else SafeChar(s[i]) && AllSafe(s, i + 1)
  }

  /** A non-empty string of characters from `[a-zA-Z0-9._-]`: what the class repeated by `+` spans. */
  predicate SafeRun(s: string)
  {
    s != [] && forall j :: 0 <= j < |s| ==> SafeChar(s[j])
  }

  /** The end of the longest run of `SafeChar` starting at position `i`. */
  function SafePrefixEnd(s: string, i: nat): (e: nat)
    requires i <= |s|
    ensures i <= e <= |s|
    ensures forall j :: i <= j < e ==> SafeChar(s[j])
    ensures e < |s| ==> !SafeChar(s[e])
    decreases |s| - i
  {
    if i < |s| && SafeChar(s[i]) then SafePrefixEnd(s, i + 1) else i
  }

  /**
   * Whether `^[a-zA-Z0-9._-]+$` finds a match, with PCRE2's default options
   * as `QRegularExpression` sets them: `+` takes the longest run of the class
   * from the start, and `$` (without the dollar-end-only option) holds at the
   * end of the subject or just before a newline that ends it.
   */
  function MatchesSafePattern(name: string): (m: bool)
    ensures m <==> SafeRun(name) || (name != [] && name[|name| - 1] == '\n' && SafeRun(name[..|name| - 1]))
  {
    var e := SafePrefixEnd(name, 0);
    e >= 1 && (e == |name| || (e == |name| - 1 && name[e] == '\n'))
  }

  /**
   * `init`'s checks, in order: empty, then "..", "/" or "\", then the
   * character-class pattern. A name passes exactly when it has no "..", and
   * is a non-empty run of `[a-zA-Z0-9._-]` (which already excludes both
   * separators), possibly followed by one final newline, which the
   * pattern's `$` lets through.
   */
  function CheckFileName(name: string): (r: NameCheck)
    ensures r == EmptyName <==> name == []
    ensures r == PathSeparator <==>
              name != [] && ((exists j :: DotDotAt(name, j)) || '/' in name || '\\' in name)
    ensures r == NameOk <==>
              !(exists j :: DotDotAt(name, j))
              && (SafeRun(name) || (name != [] && name[|name| - 1] == '\n' && SafeRun(name[..|name| - 1])))
  {
    if name == [] then EmptyName
    else if FindDotDot(name, 0) || '/' in name || '\\' in name then PathSeparator
    else if MatchesSafePattern(name) then NameOk
    else InvalidCharacter
  }

  /** The newline the pattern lets through: "log\n" is accepted as a base name. */
  lemma TrailingNewlineAccepted()
    ensures CheckFileName("log\n") == NameOk
    ensures CheckFileNameStrict("log\n") == InvalidCharacter
  {
    assert "log\n"[..3] == "log";
    assert !SafeChar("log\n"[3]);
  }

  /** Every acceptable name stays acceptable with a newline appended. */
  lemma NewlineSuffixAccepted(name: string)
    requires CheckFileNameStrict(name) == NameOk
    ensures CheckFileName(name + "\n") == NameOk
  {
    var n := name + "\n";
    assert n[..|n| - 1] == name;
    if exists j :: DotDotAt(n, j) {
      var j :| DotDotAt(n, j);
      assert DotDotAt(name, j);
    }
  }

  /**
   * The check the code evidently intends: the pattern anchored at the very
   * end, so that a name passes exactly when it is a non-empty run of
   * `[a-zA-Z0-9._-]` without "..". No accepted name holds a newline.
   */
  function CheckFileNameStrict(name: string): (r: NameCheck)
    ensures r == EmptyName <==> name == []
    ensures r == PathSeparator <==>
              name != [] && ((exists j :: DotDotAt(name, j)) || '/' in name || '\\' in name)
    ensures r == NameOk <==> SafeRun(name) && !(exists j :: DotDotAt(name, j))
    ensures r == NameOk ==> '\n' !in name && '/' !in name && '\\' !in name
  {
    if name == [] then EmptyName
    else if FindDotDot(name, 0) || '/' in name || '\\' in name then PathSeparator
    else if AllSafe(name, 0) then NameOk
    else InvalidCharacter
  }

  /** The two checks differ exactly on names ending in a newline. */
  lemma StrictAgreesWithoutNewline(name: string)
    ensures name == [] || name[|name| - 1] != '\n' ==> CheckFileName(name) == CheckFileNameStrict(name)
    ensures CheckFileNameStrict(name) == NameOk ==> CheckFileName(name) == NameOk
  {
  }

  // ---------------------------------------------------------------------
  // Enabled message types
  // ---------------------------------------------------------------------

  /** The four stored settings `init` reads; -1 when absent. */
  datatype LogSettings = LogSettings(debug: int, warning: int, critical: int, info: int)

  /**
   * `QList::insert(i, t)` as Qt 5 performs it: an index at or below 0
   * prepends, one at or past the end appends.
   */
  function ListInsert(l: seq<int>, i: int, t: int): (r: seq<int>)
    ensures |r| == |l| + 1
    ensures multiset(r) == multiset(l) + multiset{t}
  {
    if i <= 0 then [t] + l
    else if i >= |l| then l + [t]
    else
      assert l == l[..i] + l[i..];
      l[..i] + [t] + l[i..]
  }

  /** The list `init` builds: clear, then up to five inserts. */
  function InitialLogTypes(settings: LogSettings): (types: seq<int>)
  {
    var t0: seq<int> := [];
    var t1 := if settings.debug == -1 && settings.warning == -1 && settings.critical == -1
              then ListInsert(t0, 0, CriticalMsg) else t0;
    var t2 := if settings.debug == 0 then ListInsert(t1, 0, DebugMsg) else t1;
    var t3 := if settings.warning == 1 then ListInsert(t2, 1, WarningMsg) else t2;
    var t4 := if settings.critical == 2 then ListInsert(t3, 2, CriticalMsg) else t3;
    if settings.info == 4 then ListInsert(t4, 4, InfoMsg) else t4
  }

  /** The types the settings ask for, with multiplicity. */
  function Requested(settings: LogSettings): multiset<int>
  {
    (if settings.debug == -1 && settings.warning == -1 && settings.critical == -1
     then multiset{CriticalMsg} else multiset{})
    + (if settings.debug == 0 then multiset{DebugMsg} else multiset{})
    + (if settings.warning == 1 then multiset{WarningMsg} else multiset{})
    + (if settings.critical == 2 then multiset{CriticalMsg} else multiset{})
    + (if settings.info == 4 then multiset{InfoMsg} else multiset{})
  }

  /** Every insert lands in the list, whatever its index: the list holds exactly the requested types. */
  lemma InitialLogTypesRequested(settings: LogSettings)
    ensures multiset(InitialLogTypes(settings)) == Requested(settings)
  {
  }

  /** Which types `init` enables, each at most once; fatal is never enabled by it. */
  lemma InitialLogTypesMembers(settings: LogSettings)
    ensures DebugMsg in InitialLogTypes(settings) <==> settings.debug == 0
    ensures WarningMsg in InitialLogTypes(settings) <==> settings.warning == 1
    ensures CriticalMsg in InitialLogTypes(settings) <==>
              (settings.critical == 2
               || (settings.debug == -1 && settings.warning == -1 && settings.critical == -1))
    ensures InfoMsg in InitialLogTypes(settings) <==> settings.info == 4
    ensures FatalMsg !in InitialLogTypes(settings)
    ensures forall t :: multiset(InitialLogTypes(settings))[t] <= 1
  {
    InitialLogTypesRequested(settings);
    RequestedMembers(settings, InitialLogTypes(settings));
  }

  /** Membership in any list holding exactly the requested types. */
  lemma RequestedMembers(settings: LogSettings, l: seq<int>)
    requires multiset(l) == Requested(settings)
    ensures DebugMsg in l <==> settings.debug == 0
    ensures WarningMsg in l <==> settings.warning == 1
    ensures CriticalMsg in l <==>
              (settings.critical == 2
               || (settings.debug == -1 && settings.warning == -1 && settings.critical == -1))
    ensures InfoMsg in l <==> settings.info == 4
    ensures FatalMsg !in l
    ensures forall t :: multiset(l)[t] <= 1
  {
    InMultiset(l, DebugMsg);
    InMultiset(l, WarningMsg);
    InMultiset(l, CriticalMsg);
    InMultiset(l, FatalMsg);
    InMultiset(l, InfoMsg);
  }

  lemma InMultiset(l: seq<int>, t: int)
    ensures t in l <==> multiset(l)[t] > 0
  {
  }

  /** With nothing stored, only critical messages are logged. */
  lemma DefaultLogTypes()
    ensures InitialLogTypes(LogSettings(-1, -1, -1, -1)) == [CriticalMsg]
  {
  }

  /** With every setting stored, the list is debug, warning, critical, info (the last insert appends). */
  lemma AllLogTypes()
    ensures InitialLogTypes(LogSettings(0, 1, 2, 4)) == [DebugMsg, WarningMsg, CriticalMsg, InfoMsg]
  {
  }

  // ---------------------------------------------------------------------
  // Level tag and module name
  // ---------------------------------------------------------------------

  const LevelList: seq<string> := ["DEB", "WAR", "CRI", "FAT", "INF"]

  /** The bounds-checked lookup in the level table, "UNK" outside it. */
  function LevelTag(msgType: int): (tag: string)
    ensures |tag| == 3
    ensures tag == "UNK" <==> !(0 <= msgType < |LevelList|)
  {
    if 0 <= msgType < |LevelList| then LevelList[msgType] else "UNK"
  }

  /** Distinct known types get distinct tags. */
  lemma LevelTagInjective(a: int, b: int)
    requires 0 <= a < |LevelList| && 0 <= b < |LevelList| && a != b
    ensures LevelTag(a) != LevelTag(b)
  {
  }

  /** ASCII lower case, the only case folding this model performs. */
  function Lower(c: char): char
  {
    if 'A' <= c <= 'Z' then (c as int + 32) as char else c
  }

  predicate QmlAt(s: string, i: int)
  {
    0 <= i && i + 4 <= |s|
    && Lower(s[i]) == '.' && Lower(s[i + 1]) == 'q' && Lower(s[i + 2]) == 'm' && Lower(s[i + 3]) == 'l'
  }

  function FindQml(s: string, i: nat): (found: bool)
    ensures found <==> exists j :: i <= j && QmlAt(s, j)
    decreases |s| - i
  {
    if i + 4 > |s| then false
    else if QmlAt(s, i) then true
    else FindQml(s, i + 1)
  }

  /** "QML" for a source file whose name contains ".qml" in any case, "App" otherwise. */
  function ModuleName(file: string): (m: string)
    ensures m == "QML" || m == "App"
    ensures m == "QML" <==> exists j :: QmlAt(file, j)
  {
    if FindQml(file, 0) then "QML" else "App"
  }

  lemma ModuleNameExamples()
    ensures ModuleName("main.qml") == "QML"
    ensures ModuleName("Dashboard.QML") == "QML"
    ensures ModuleName("appinterface.cpp") == "App"
  {
    assert QmlAt("main.qml", 4);
    assert QmlAt("Dashboard.QML", 9);
  }

  // ---------------------------------------------------------------------
  // Numbers in lines
  // ---------------------------------------------------------------------

  predicate IsDigit(c: char)
  {
    '0' <= c <= '9'
  }

  function DigitValue(c: char): int
  {
    c as int - '0' as int
  }

  /** Decimal digits of `n`, most significant first, no leading zero. */
  function NatToString(n: nat): (s: string)
    ensures |s| >= 1 && forall i :: 0 <= i < |s| ==> IsDigit(s[i])
    ensures |s| > 1 ==> s[0] != '0'
    decreases n
  {
    var d := ('0' as int + n % 10) as char;
    if n < 10 then [d] else NatToString(n / 10) + [d]
  }

  /** The value a string of decimal digits denotes. */
  function DecimalValue(s: string): int
  {
    if s == [] then 0 else 10 * DecimalValue(s[..|s| - 1]) + DigitValue(s[|s| - 1])
  }

  /** The rendering reads back as the number it renders. */
  lemma {:induction false} NatToStringValue(n: nat)
    ensures DecimalValue(NatToString(n)) == n
    decreases n
  {
    var s := NatToString(n);
    if n >= 10 {
      NatToStringValue(n / 10);
      assert s[..|s| - 1] == NatToString(n / 10);
    }
  }

  /** `QString::arg(int)`: a minus sign for negative numbers. */
  function IntToString(i: int): (s: string)
    ensures i >= 0 ==> s == NatToString(i)
    ensures i < 0 ==> |s| >= 2 && s[0] == '-' && s[1..] == NatToString(-i)
  {
    if i < 0 then "-" + NatToString(-i) else NatToString(i)
  }
}
