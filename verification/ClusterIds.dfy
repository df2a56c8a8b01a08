/**
  Cluster ids: `CHAIN-YYYY-MM-DD-<label>-NNN`. Labels may themselves contain dashes and digits,
  so reading a persisted id back is not obvious; the round trip is what lets a restarted process
  continue numbering without ever reissuing an id to another chain.
*/
module ClusterIds {
  import opened Chains

  datatype Option<T> = None | Some(value: T)

  // ---------------------------------------------------------------------------------------------
  // Text
  // ---------------------------------------------------------------------------------------------

  /** Split on dashes; always at least one part. */
  function Split(s: string): (parts: seq<string>)
    ensures |parts| >= 1
  {
    if s == "" then [""]
    else
      var rest := Split(s[1..]);
      if s[0] == '-' then [""] + rest else [[s[0]] + rest[0]] + rest[1..]
  }

  function Join(parts: seq<string>): string {
    if parts == [] then ""
    else if |parts| == 1 then parts[0]
    else parts[0] + "-" + Join(parts[1..])
  }

  function Lead(c: char, parts: seq<string>): seq<string>
    requires parts != []
  {
    if c == '-' then [""] + parts else [[c] + parts[0]] + parts[1..]
  }

  lemma SplitCons(c: char, s: string)
    ensures Split([c] + s) == Lead(c, Split(s))
  {
    assert ([c] + s)[1..] == s;
  }

  lemma LeadAppends(c: char, p: seq<string>, q: seq<string>)
    requires p != []
    ensures Lead(c, p + q) == Lead(c, p) + q
  {
    assert (p + q)[0] == p[0] && (p + q)[1..] == p[1..] + q;
  }

  lemma {:induction false} SplitAppends(a: string, b: string)
    ensures Split(a + "-" + b) == Split(a) + Split(b)
  {
    if a == "" {
      assert a + "-" + b == ['-'] + b;
      SplitCons('-', b);
    } else {
      var tail := a[1..];
      SplitAppends(tail, b);
      assert a == [a[0]] + tail;
      assert a + "-" + b == [a[0]] + (tail + "-" + b);
      SplitCons(a[0], tail);
      SplitCons(a[0], tail + "-" + b);
      LeadAppends(a[0], Split(tail), Split(b));
    }
  }

  lemma {:induction false} JoinSplit(s: string)
    ensures Join(Split(s)) == s
  {
    if s != "" {
      JoinSplit(s[1..]);
      SplitCons(s[0], s[1..]);
      assert s == [s[0]] + s[1..];
      var rest := Split(s[1..]);
      hide Split;
      JoinLead(s[0], rest);
    }
  }

  lemma JoinLead(c: char, parts: seq<string>)
    requires parts != []
    ensures Join(Lead(c, parts)) == [c] + Join(parts)
  {
    var led := Lead(c, parts);
    assert led[1..] == if c == '-' then parts else parts[1..];
  }

  lemma {:induction false} SplitWhole(s: string)
    requires '-' !in s
    ensures Split(s) == [s]
  {
    if s != "" {
      assert '-' !in s[1..];
      SplitWhole(s[1..]);
      assert [s[0]] + s[1..] == s;
    }
  }

  predicate IsDigit(c: char) { '0' <= c <= '9' }

  function DigitOf(n: nat): (c: char)
    requires n < 10
    ensures IsDigit(c) && DigitValue(c) == n
  {
    ['0', '1', '2', '3', '4', '5', '6', '7', '8', '9'][n]
  }

  function Decimal(n: nat): (s: string)
    ensures |s| >= 1 && forall c :: c in s ==> IsDigit(c)
  {
    if n < 10 then [DigitOf(n)] else Decimal(n / 10) + [DigitOf(n % 10)]
  }

  /** `{n:03d}` */
  function Pad3(n: nat): (s: string)
    ensures |s| >= 3 && forall c :: c in s ==> IsDigit(c)
  {
    var d := Decimal(n);
    if |d| == 1 then "00" + d else if |d| == 2 then "0" + d else d
  }

  function Value(s: string): nat
    requires forall c :: c in s ==> IsDigit(c)
  {
    if s == "" then 0
    else
      assert s[|s| - 1] in s;
      Value(s[..|s| - 1]) * 10 + DigitValue(s[|s| - 1])
  }

  function DigitValue(c: char): nat
    requires IsDigit(c)
  {
    c as int - '0' as int
  }

  lemma {:induction false} LeadingZero(s: string)
    requires forall c :: c in s ==> IsDigit(c)
    ensures Value("0" + s) == Value(s)
  {
    if s != "" {
      var init := s[..|s| - 1];
      assert ("0" + s)[..|s|] == "0" + init;
      LeadingZero(init);
    } else {
      assert ("0" + s)[..0] == "";
    }
  }

  lemma {:induction false} ValueDecimal(n: nat)
    ensures Value(Decimal(n)) == n
  {
    if n >= 10 {
      ValueDecimal(n / 10);
      var s := Decimal(n);
      assert s[..|s| - 1] == Decimal(n / 10);
    } else {
      assert Decimal(n)[..0] == "";
    }
  }

  lemma ValuePad3(n: nat)
    ensures Value(Pad3(n)) == n
  {
    var d := Decimal(n);
    ValueDecimal(n);
    LeadingZero(d);
    LeadingZero("0" + d);
    assert "00" + d == "0" + ("0" + d);
  }

  // ---------------------------------------------------------------------------------------------
  // Labels
  // ---------------------------------------------------------------------------------------------

  const LABEL_MAX := 40

  predicate Allowed(c: char) {
    'A' <= c <= 'Z' || 'a' <= c <= 'z' || '0' <= c <= '9' || c == '_' || c == '-'
  }

  predicate IsSpace(c: char) { c == ' ' || c == '\t' || c == '\n' || c == '\r' }

  function TrimLeft(s: string, drop: char -> bool): string {
    if s != "" && drop(s[0]) then TrimLeft(s[1..], drop) else s
  }

  function TrimRight(s: string, drop: char -> bool): string {
    if s != "" && drop(s[|s| - 1]) then TrimRight(s[..|s| - 1], drop) else s
  }

  function Trim(s: string, drop: char -> bool): string {
    TrimRight(TrimLeft(s, drop), drop)
  }

  /** Every maximal run of characters outside the allowed class becomes one dash. */
  function Substitute(s: string): string
    decreases |s|, 1
  {
    if s == "" then ""
    else if Allowed(s[0]) then [s[0]] + Substitute(s[1..])
    else "-" + SkipRun(s[1..])
  }

  function SkipRun(s: string): string
    decreases |s|, 2
  {
    if s != "" && !Allowed(s[0]) then SkipRun(s[1..]) else Substitute(s)
  }

  function SanitizeLabel(name: string): string {
    var dash := c => c == '-';
    var full := Trim(Substitute(Trim(name, IsSpace)), dash);
    var tag := Trim(if |full| <= LABEL_MAX then full else full[..LABEL_MAX], dash);
    if tag == "" then "entity" else tag
  }

  /** What a label looks like in an id. */
  predicate Clean(s: string) {
    && 1 <= |s| <= LABEL_MAX
    && (forall c :: c in s ==> Allowed(c))
    && s[0] != '-' && s[|s| - 1] != '-'
  }

  lemma {:induction false} TrimLeftFacts(s: string, drop: char -> bool)
    ensures var t := TrimLeft(s, drop);
      && |t| <= |s| && (forall c :: c in t ==> c in s) && (t == "" || !drop(t[0]))
  {
    if s != "" && drop(s[0]) {
      TrimLeftFacts(s[1..], drop);
      assert forall c :: c in s[1..] ==> c in s;
    }
  }

  lemma {:induction false} TrimRightFacts(s: string, drop: char -> bool)
    ensures var t := TrimRight(s, drop);
      && t <= s && (t == "" || !drop(t[|t| - 1]))
  {
    if s != "" && drop(s[|s| - 1]) {
      TrimRightFacts(s[..|s| - 1], drop);
    }
  }

  lemma {:induction false} SubstituteFacts(s: string)
    ensures forall c :: c in Substitute(s) ==> Allowed(c)
    ensures forall c :: c in SkipRun(s) ==> Allowed(c)
    decreases |s|
  {
    if s != "" {
      SubstituteFacts(s[1..]);
    }
  }

  lemma TrimFacts(s: string, drop: char -> bool)
    ensures var t := Trim(s, drop);
      && |t| <= |s| && (forall c :: c in t ==> c in s) && (t == "" || (!drop(t[0]) && !drop(t[|t| - 1])))
  {
    var left := TrimLeft(s, drop);
    TrimLeftFacts(s, drop);
    TrimRightFacts(left, drop);
    hide TrimLeft, TrimRight;
    var t := TrimRight(left, drop);
    assert forall c :: c in t ==> c in left;
  }

  /** Every name yields a well-formed label, and well-formed labels are left alone. */
  lemma SanitizeIsClean(name: string)
    ensures Clean(SanitizeLabel(name))
  {
    var dash := c => c == '-';
    var trimmed := Trim(name, IsSpace);
    var sub := Substitute(trimmed);
    var full := Trim(sub, dash);
    var cut := if |full| <= LABEL_MAX then full else full[..LABEL_MAX];
    SubstituteFacts(trimmed);
    TrimFacts(sub, dash);
    TrimFacts(cut, dash);
    assert SanitizeLabel(name) == if Trim(cut, dash) == "" then "entity" else Trim(cut, dash);
    hide Trim, Substitute, SanitizeLabel;
    assert forall c :: c in cut ==> c in full && c in sub && Allowed(c);
  }

  lemma {:induction false} SubstituteKeeps(s: string)
    requires forall c :: c in s ==> Allowed(c)
    ensures Substitute(s) == s
  {
    if s != "" {
      SubstituteKeeps(s[1..]);
    }
  }

  /** A well-formed label is its own label. */
  lemma CleanIsKept(s: string)
    requires Clean(s)
    ensures SanitizeLabel(s) == s
  {
    var dash := c => c == '-';
    assert s[0] in s && s[|s| - 1] in s;
    TrimKeeps(s, IsSpace);
    SubstituteKeeps(s);
    TrimKeeps(s, dash);
    hide Trim, Substitute;
  }

  lemma TrimKeeps(s: string, drop: char -> bool)
    requires s != "" && !drop(s[0]) && !drop(s[|s| - 1])
    ensures Trim(s, drop) == s
  {
  }

  /** The characters that count: letters, digits and underscores. */
  predicate IsLetter(c: char) {
    65 <= c as int < 65 + 26 || 97 <= c as int < 97 + 26 || 48 <= c as int < 48 + 10 || c == '_'
  }

  function Letters(s: string): string {
    if s == "" then ""
    else if IsLetter(s[0]) then [s[0]] + Letters(s[1..])
    else Letters(s[1..])
  }

  lemma LettersAllowed()
    ensures forall c :: Allowed(c) <==> IsLetter(c) || c == '-'
  {
  }

  lemma {:induction false} SubstituteShrinks(s: string)
    ensures |Substitute(s)| <= |s| && |SkipRun(s)| <= |s|
    decreases |s|
  {
    if s != "" {
      SubstituteShrinks(s[1..]);
    }
  }

  lemma {:induction false} LettersJoin(a: string, b: string)
    ensures Letters(a + b) == Letters(a) + Letters(b)
  {
    if a == "" {
      assert a + b == b;
    } else {
      LettersJoin(a[1..], b);
      assert (a + b)[1..] == a[1..] + b;
    }
  }

  lemma {:induction false} SubstituteLetters(s: string)
    ensures Letters(Substitute(s)) == Letters(s) && Letters(SkipRun(s)) == Letters(s)
    decreases |s|
  {
    LettersAllowed();
    if s != "" {
      SubstituteLetters(s[1..]);
      assert ("-" + SkipRun(s[1..]))[1..] == SkipRun(s[1..]);
      assert ([s[0]] + Substitute(s[1..]))[1..] == Substitute(s[1..]);
    }
  }

  /** Trimming what does not count loses nothing that does. */
  lemma {:induction false} TrimLeftLetters(s: string, drop: char -> bool)
    requires forall c :: drop(c) ==> !IsLetter(c)
    ensures Letters(TrimLeft(s, drop)) == Letters(s)
  {
    if s != "" && drop(s[0]) {
      TrimLeftLetters(s[1..], drop);
    }
  }

  lemma {:induction false} TrimRightLetters(s: string, drop: char -> bool)
    requires forall c :: drop(c) ==> !IsLetter(c)
    ensures Letters(TrimRight(s, drop)) == Letters(s)
  {
    if s != "" && drop(s[|s| - 1]) {
      TrimRightLetters(s[..|s| - 1], drop);
      LettersJoin(s[..|s| - 1], [s[|s| - 1]]);
      assert s == s[..|s| - 1] + [s[|s| - 1]];
    }
  }

  lemma TrimLetters(s: string, drop: char -> bool)
    requires forall c :: drop(c) ==> !IsLetter(c)
    ensures Letters(Trim(s, drop)) == Letters(s)
  {
    TrimLeftLetters(s, drop);
    TrimRightLetters(TrimLeft(s, drop), drop);
  }

  lemma {:induction false} NoLetters(s: string)
    requires forall c :: c in s ==> Allowed(c)
    ensures Letters(s) == "" <==> forall i :: 0 <= i < |s| ==> s[i] == '-'
  {
    LettersAllowed();
    if s != "" {
      assert forall c :: c in s[1..] ==> c in s;
      NoLetters(s[1..]);
      assert s[0] in s;
      assert forall i :: 0 < i < |s| ==> s[i] == s[1..][i - 1];
      assert forall i :: 0 <= i < |s| - 1 ==> s[1..][i] == s[i + 1];
    }
  }

  /** Cutting to the label's length and trimming again keeps the letters up to the cut. */
  lemma CutKeepsLetters(full: string, dash: char -> bool)
    requires (forall c :: c in full ==> Allowed(c)) && (full == "" || full[0] != '-')
    requires forall c :: dash(c) <==> c == '-'
    ensures var tag := Trim(if |full| <= LABEL_MAX then full else full[..LABEL_MAX], dash);
      && (tag == "" <==> full == "") && (tag == "" <==> Letters(full) == "") && (tag == "" <==> Letters(tag) == "")
      && Letters(tag) <= Letters(full) && (|full| <= LABEL_MAX ==> Letters(tag) == Letters(full))
      && |tag| <= LABEL_MAX && forall c :: c in tag ==> Allowed(c)
  {
    hide Trim;
    var cut := if |full| <= LABEL_MAX then full else full[..LABEL_MAX];
    var tag := Trim(cut, dash);
    LettersAllowed();
    TrimLetters(cut, dash);
    TrimFacts(cut, dash);
    LettersJoin(cut, full[|cut|..]);
    assert full == cut + full[|cut|..];
    NoLetters(full);
    NoLetters(cut);
    NoLetters(tag);
    hide Letters, Allowed, IsLetter;
    assert full[|full|..] == "";
  }

  /**
    A label keeps the letters, digits and underscores of the name, in order, as far as it reaches; a name
    without any gets the stand-in.
  */
  lemma SanitizeKeepsLetters(name: string)
    ensures var tag := SanitizeLabel(name);
      && (Letters(name) == "" ==> tag == "entity")
      && (Letters(name) != "" ==> Letters(tag) != "" && Letters(tag) <= Letters(name))
      && (Letters(name) != "" && |name| <= 40 ==> Letters(tag) == Letters(name))
      && |tag| <= 40 && forall c :: c in tag ==> IsLetter(c) || c == '-'
  {
    var dash := c => c == '-';
    var trimmed := Trim(name, IsSpace);
    var sub := Substitute(trimmed);
    var full := Trim(sub, dash);
    var tag := Trim(if |full| <= LABEL_MAX then full else full[..LABEL_MAX], dash);
    assert SanitizeLabel(name) == if tag == "" then "entity" else tag;
    hide Trim, Substitute, SanitizeLabel, Letters, Allowed;
    TrimLetters(name, IsSpace);
    SubstituteLetters(trimmed);
    TrimLetters(sub, dash);
    SubstituteFacts(trimmed);
    SubstituteShrinks(trimmed);
    TrimFacts(name, IsSpace);
    TrimFacts(sub, dash);
    CutKeepsLetters(full, dash);
    LettersAllowed();
  }

  lemma SanitizeIdempotent(name: string)
    ensures SanitizeLabel(SanitizeLabel(name)) == SanitizeLabel(name)
  {
    SanitizeIsClean(name);
    var s := SanitizeLabel(name);
    assert s[0] in s && s[|s| - 1] in s;
    assert Trim(s, IsSpace) == s;
    SubstituteKeeps(s);
    var dash := c => c == '-';
    assert Trim(s, dash) == s;
  }

  // ---------------------------------------------------------------------------------------------
  // Printing and parsing
  // ---------------------------------------------------------------------------------------------

  /** `YYYY-MM-DD`: three dash-free parts. */
  type Date = s: string | |Split(s)| == 3 witness "0-0-0"

  datatype Key = Key(date: string, tag: string)
  datatype Parsed = Parsed(key: Key, sequence: nat)

  function Print(date: Date, tag: string, n: nat): string {
    "CHAIN" + "-" + (date + "-" + (tag + "-" + Pad3(n)))
  }

  function Parse(id: string): Option<Parsed> {
    var parts := Split(id);
    var last := parts[|parts| - 1];
    if |parts| >= 6 && |last| > 0 && (forall i :: 0 <= i < |last| ==> IsDigit(last[i])) then
      Some(Parsed(Key(Join(parts[1..4]), Join(parts[4..|parts| - 1])), Value(last)))
    else
      None
  }

  lemma SplitPrint(date: Date, tag: string, n: nat)
    ensures Split(Print(date, tag, n)) == ["CHAIN"] + Split(date) + Split(tag) + [Pad3(n)]
  {
    var last := Pad3(n);
    SplitWhole("CHAIN");
    SplitWhole(last);
    hide Split, Pad3;
    SplitAppends("CHAIN", date + "-" + (tag + "-" + last));
    SplitAppends(date, tag + "-" + last);
    SplitAppends(tag, last);
    Regroup(["CHAIN"], Split(date), Split(tag), [last]);
  }

  lemma Regroup(a: seq<string>, b: seq<string>, c: seq<string>, d: seq<string>)
    ensures a + (b + (c + d)) == a + b + c + d
  {
  }

  /** Parsing inverts printing for every date, label and sequence number, dashes included. */
  lemma ParsePrint(date: Date, tag: string, n: nat)
    ensures Parse(Print(date, tag, n)) == Some(Parsed(Key(date, tag), n))
  {
    SplitPrint(date, tag, n);
    var parts := Split(Print(date, tag, n));
    var last := parts[|parts| - 1];
    assert last == Pad3(n);
    assert forall i :: 0 <= i < |last| ==> last[i] in last;
    assert parts[1..4] == Split(date);
    assert parts[4..|parts| - 1] == Split(tag);
    JoinSplit(date);
    JoinSplit(tag);
    ValuePad3(n);
  }

  // ---------------------------------------------------------------------------------------------
  // The generator
  // ---------------------------------------------------------------------------------------------

  /** One persisted investigation, as far as ids are concerned. */
  datatype Row = Row(clusterId: string, anchor: Option<Uid>)

  ghost predicate Injective(m: map<Uid, string>) {
    forall a, b :: a in m && b in m && m[a] == m[b] ==> a == b
  }

  /** The counters are at or past every sequence number that occurs in `ids`. */
  ghost predicate Covers(counters: map<Key, nat>, ids: set<string>) {
    forall id :: id in ids ==> CoversId(counters, id)
  }

  predicate CoversId(counters: map<Key, nat>, id: string) {
    var p := Parse(id);
    p.Some? ==> p.value.key in counters && p.value.sequence <= counters[p.value.key]
  }

  ghost function IdsOf(rows: seq<Row>): set<string> {
    set i | 0 <= i < |rows| :: rows[i].clusterId
  }

  /** Cluster ids are the primary key of the investigations table. */
  ghost predicate DistinctIds(rows: seq<Row>) {
    forall i, j :: 0 <= i < j < |rows| ==> rows[i].clusterId != rows[j].clusterId
  }

  /** Row `i` names an anchor that no later row names. */
  ghost predicate LastOfAnchor(rows: seq<Row>, i: int) {
    && 0 <= i < |rows| && rows[i].anchor.Some?
    && forall j :: i < j < |rows| ==> rows[j].anchor != rows[i].anchor
  }

  function Raise(counters: map<Key, nat>, key: Key, n: nat): map<Key, nat> {
    var known := if key in counters then counters[key] else 0;
    counters[key := if known < n then n else known]
  }

  function AnchorsOf(rows: seq<Row>): map<Uid, string> {
    if rows == [] then map[]
    else
      var r, before := rows[|rows| - 1], AnchorsOf(rows[..|rows| - 1]);
      if r.anchor.Some? then before[r.anchor.value := r.clusterId] else before
  }

  function CountersOf(rows: seq<Row>): map<Key, nat> {
    if rows == [] then map[]
    else
      var p, before := Parse(rows[|rows| - 1].clusterId), CountersOf(rows[..|rows| - 1]);
      if p.Some? then Raise(before, p.value.key, p.value.sequence) else before
  }

  /** Read the persisted ids: anchors, and the highest sequence per (date, label). */
  method LoadIdState(rows: seq<Row>) returns (anchors: map<Uid, string>, counters: map<Key, nat>)
    ensures anchors == AnchorsOf(rows) && counters == CountersOf(rows)
  {
    anchors, counters := map[], map[];
    for n := 0 to |rows|
      invariant anchors == AnchorsOf(rows[..n]) && counters == CountersOf(rows[..n])
    {
      assert rows[..n + 1][..n] == rows[..n];
      var r := rows[n];
      if r.anchor.Some? {
        anchors := anchors[r.anchor.value := r.clusterId];
      }
      var p := Parse(r.clusterId);
      if p.Some? {
        counters := Raise(counters, p.value.key, p.value.sequence);
      }
    }
    assert rows[..|rows|] == rows;
  }

  lemma {:induction false} AnchorsComeFromRows(rows: seq<Row>)
    ensures forall a :: a in AnchorsOf(rows) ==>
      exists i :: 0 <= i < |rows| && rows[i].clusterId == AnchorsOf(rows)[a]
  {
    if rows != [] {
      var n := |rows| - 1;
      AnchorsComeFromRows(rows[..n]);
      forall a | a in AnchorsOf(rows) ensures exists i :: 0 <= i < |rows| && rows[i].clusterId == AnchorsOf(rows)[a] {
        if rows[n].clusterId != AnchorsOf(rows)[a] {
          var i :| 0 <= i < n && rows[..n][i].clusterId == AnchorsOf(rows[..n])[a];
          assert rows[i].clusterId == AnchorsOf(rows)[a];
        }
      }
    }
  }

  /** Loaded anchors are one-to-one with ids. */
  lemma {:induction false} AnchorsInjective(rows: seq<Row>)
    requires DistinctIds(rows)
    ensures Injective(AnchorsOf(rows)) && AnchorsOf(rows).Values <= IdsOf(rows)
  {
    AnchorsComeFromRows(rows);
    if rows != [] {
      var n := |rows| - 1;
      AnchorsInjective(rows[..n]);
      AnchorsComeFromRows(rows[..n]);
      var before := AnchorsOf(rows[..n]);
      forall b | b in before ensures before[b] != rows[n].clusterId {
        var i :| 0 <= i < n && rows[..n][i].clusterId == before[b];
        assert rows[i].clusterId != rows[n].clusterId;
      }
    }
    forall id | id in AnchorsOf(rows).Values ensures id in IdsOf(rows) {
      IdIsOfRow(rows, id);
    }
  }

  lemma IdIsOfRow(rows: seq<Row>, id: string)
    requires id in AnchorsOf(rows).Values
    ensures id in IdsOf(rows)
  {
    AnchorsComeFromRows(rows);
  }

  /** Each anchor names the last row that carried it. */
  lemma {:induction false} AnchorsLastWins(rows: seq<Row>, i: int)
    requires LastOfAnchor(rows, i)
    ensures rows[i].anchor.value in AnchorsOf(rows) && AnchorsOf(rows)[rows[i].anchor.value] == rows[i].clusterId
  {
    var n := |rows| - 1;
    if i < n {
      assert LastOfAnchor(rows[..n], i);
      AnchorsLastWins(rows[..n], i);
      assert rows[n].anchor != rows[i].anchor;
    }
  }

  /** Loaded counters cover every persisted id. */
  lemma {:induction false} CountersCover(rows: seq<Row>, i: nat)
    requires i < |rows|
    ensures CoversId(CountersOf(rows), rows[i].clusterId)
  {
    var n := |rows| - 1;
    if i < n {
      assert rows[..n][i] == rows[i];
      CountersCover(rows[..n], i);
    }
  }

  /** Loaded counters never exceed what was persisted. */
  lemma {:induction false} CountersAttained(rows: seq<Row>, key: Key)
    requires key in CountersOf(rows)
    ensures Attained(rows, key, CountersOf(rows)[key])
  {
    var n := |rows| - 1;
    var p := Parse(rows[n].clusterId);
    var c := CountersOf(rows)[key];
    if p == Some(Parsed(key, c)) {
      assert Attained(rows, key, c);
    } else {
      CountersAttained(rows[..n], key);
      var i :| 0 <= i < n && Parse(rows[..n][i].clusterId) == Some(Parsed(key, c));
      assert Parse(rows[i].clusterId) == Some(Parsed(key, c));
    }
  }

  ghost predicate Attained(rows: seq<Row>, key: Key, n: nat) {
    exists i :: 0 <= i < |rows| && Parse(rows[i].clusterId) == Some(Parsed(key, n))
  }

  /** The next sequence number of a label gives an id that does not occur yet. */
  lemma NextIsNew(counters: map<Key, nat>, date: Date, tag: string, ids: set<string>)
    requires Covers(counters, ids)
    ensures var key := Key(date, tag);
      var n := (if key in counters then counters[key] else 0) + 1;
      var id := Print(date, tag, n);
      id !in ids && Covers(counters[key := n], ids + {id})
  {
    var key := Key(date, tag);
    var n := (if key in counters then counters[key] else 0) + 1;
    ParsePrint(date, tag, n);
    hide Print, Parse;
    assert !CoversId(counters, Print(date, tag, n));
  }

  class ClusterIdGenerator {
    const dateOf: int -> Date
    var counters: map<Key, nat>
    var byAnchor: map<Uid, string>
    /** Every id that was ever persisted (and loaded) or issued. */
    ghost var issued: set<string>

    ghost predicate Valid()
      reads this
    {
      Injective(byAnchor) && byAnchor.Values <= issued && Covers(counters, issued)
    }

    constructor (dateOf: int -> Date)
      ensures Valid() && this.dateOf == dateOf && byAnchor == map[] && counters == map[] && issued == {}
    {
      this.dateOf := dateOf;
      counters, byAnchor, issued := map[], map[], {};
    }

    /** Seed from the store; counters only ever move up. */
    method Preload(anchors: map<Uid, string>, seeds: map<Key, nat>, ghost persisted: set<string>)
      requires Valid()
      requires Injective(byAnchor + anchors) && anchors.Values <= persisted && Covers(seeds, persisted)
      modifies this
      ensures Valid()
      ensures byAnchor == old(byAnchor) + anchors && issued == old(issued) + persisted
      ensures counters.Keys == old(counters).Keys + seeds.Keys
      ensures forall k :: k in counters ==> counters[k] == Max(old(counters), seeds, k)
    {
      byAnchor := byAnchor + anchors;
      var todo := seeds.Keys;
      ghost var start := counters;
      while todo != {}
        invariant todo <= seeds.Keys
        invariant byAnchor == old(byAnchor) + anchors && issued == old(issued)
        invariant counters.Keys == start.Keys + (seeds.Keys - todo)
        invariant forall k :: k in counters ==>
          counters[k] == if k in todo then start[k] else Max(start, seeds, k)
        decreases todo
      {
        var key :| key in todo;
        counters := Raise(counters, key, seeds[key]);
        todo := todo - {key};
      }
      issued := issued + persisted;
    }

    /**
      A known anchor gets its old id back; any other gets one that was never persisted or issued.
    */
    method NextId(firstTime: int, entityName: string, anchor: Option<Uid>) returns (id: string)
      requires Valid()
      modifies this
      ensures Valid()
      ensures anchor.Some? && anchor.value in old(byAnchor) ==>
        id == old(byAnchor)[anchor.value] && byAnchor == old(byAnchor) && counters == old(counters) && issued == old(issued)
      ensures !(anchor.Some? && anchor.value in old(byAnchor)) ==>
        && id !in old(issued) && issued == old(issued) + {id}
        && byAnchor == (if anchor.Some? then old(byAnchor)[anchor.value := id] else old(byAnchor))
      ensures !(anchor.Some? && anchor.value in old(byAnchor)) ==>
        var key := Key(dateOf(firstTime), SanitizeLabel(entityName));
        && counters == old(counters)[key := (if key in old(counters) then old(counters)[key] else 0) + 1]
        && id == Print(dateOf(firstTime), key.tag, counters[key])
    {
      hide SanitizeLabel, Print, Parse;
      if anchor.Some? && anchor.value in byAnchor {
        return byAnchor[anchor.value];
      }
      var date := dateOf(firstTime);
      var tag := SanitizeLabel(entityName);
      var key := Key(date, tag);
      ghost var before := counters;
      counters := counters[key := (if key in counters then counters[key] else 0) + 1];
      id := Print(date, tag, counters[key]);
      NextIsNew(before, date, tag, issued);
      hide Covers;
      if anchor.Some? {
        byAnchor := byAnchor[anchor.value := id];
      }
      issued := issued + {id};
    }
  }

  /** A restarted process: the store is parsed and preloaded. What was persisted is never issued again. */
  method Resume(dateOf: int -> Date, rows: seq<Row>) returns (g: ClusterIdGenerator)
    requires DistinctIds(rows)
    ensures fresh(g) && g.Valid() && g.dateOf == dateOf && g.issued == IdsOf(rows)
    ensures g.byAnchor == AnchorsOf(rows) && forall k :: k in g.counters <==> k in CountersOf(rows)
    ensures forall k :: k in g.counters ==> g.counters[k] == CountersOf(rows)[k]
  {
    hide Parse, AnchorsOf, CountersOf, DistinctIds, Injective;
    g := new ClusterIdGenerator(dateOf);
    var anchors, counters := LoadIdState(rows);
    AnchorsInjective(rows);
    forall id | id in IdsOf(rows) ensures CoversId(counters, id) {
      var i :| 0 <= i < |rows| && rows[i].clusterId == id;
      CountersCover(rows, i);
    }
    assert map[] + anchors == anchors;
    g.Preload(anchors, counters, IdsOf(rows));
    assert {} + IdsOf(rows) == IdsOf(rows);
  }

  function Max(a: map<Key, nat>, b: map<Key, nat>, k: Key): nat {
    var x := if k in a then a[k] else 0;
    var y := if k in b then b[k] else 0;
    if x < y then y else x
  }
}
