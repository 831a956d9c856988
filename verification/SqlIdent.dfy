// Reading a dotted, possibly quoted name off the front of a statement, and the managed location
// that a three-part table name is given.
module SqlIdent {
  import opened Basics
  import opened Text

  // -------------------------------------------------------- scanning and splitting

  function IndexOf(s: string, c: char): (i: Option<nat>)
    ensures i.None? <==> c !in s
    ensures i.Some? ==> i.value < |s| && s[i.value] == c && c !in s[..i.value]
  {
    if s == "" then None
    else if s[0] == c then Some(0)
    else
      var i := IndexOf(s[1..], c);
      if i.None? then None else Some(i.value + 1)
  }

  predicate IsIdentChar(c: char) { c == '_' || c == '-' || 'a' <= c <= 'z' || 'A' <= c <= 'Z' || '0' <= c <= '9' }

  /** How far the name at the start of s reaches: names, dots and quoted stretches. */
  function IdentEnd(s: string): (n: nat)
    ensures n <= |s|
  {
    if s == "" then 0
    else if s[0] == '`' then
      var j := IndexOf(s[1..], '`');
      if j.None? then |s| else j.value + 2 + IdentEnd(s[j.value + 2..])
    else if s[0] == '.' || IsIdentChar(s[0]) then 1 + IdentEnd(s[1..])
    else 0
  }

  function IdentOf(s: string): string { Trim(Trim(s)[..IdentEnd(Trim(s))]) }

  /** One step of the scan: where it goes on from i, or i itself where it stops. */
  function NextChar(s: string, i: nat): (n: nat)
    requires i < |s|
    ensures i <= n <= |s|
  {
    if s[i] == '`' then
      var j := IndexOf(s[i + 1..], '`');
      if j.None? then |s| else i + j.value + 2
    else if s[i] == '.' || IsIdentChar(s[i]) then i + 1
    else i
  }

  lemma {:induction false} ScanStep(s: string, i: nat)
    requires i < |s|
    ensures
      var n := NextChar(s, i);
      i + IdentEnd(s[i..]) == if n == i then i else n + IdentEnd(s[n..])
  {
    hide IndexOf, IsIdentChar;
    var n := NextChar(s, i);
    assert s[i..][1..] == s[i + 1..];
    assert s[i..][n - i..] == s[n..];
  }

  method FirstIdent(statement: string) returns (ident: string)
    ensures ident == IdentOf(statement)
  {
    hide Trim, IsIdentChar, IndexOf, IdentEnd;
    var rest := Trim(statement);
    var b, i := "", 0;
    assert rest[0..] == rest;
    while i < |rest|
      invariant i <= |rest| && b == rest[..i]
      invariant IdentEnd(rest) == i + IdentEnd(rest[i..])
    {
      var c := rest[i];
      ScanStep(rest, i);
      if c == '`' {
        var j := IndexOf(rest[i + 1..], '`');
        if j.None? {
          b := b + rest[i..];
          break;
        }
        b := b + rest[i..i + j.value + 2];
        i := i + j.value + 2;
        continue;
      }
      if c == '.' || IsIdentChar(c) {
        b := b + [c];
        i := i + 1;
        continue;
      }
      break;
    }
    assert b == rest[..IdentEnd(rest)];
    ident := Trim(b);
  }

  function TrimBackticks(s: string): string
  {
    if s != "" && s[0] == '`' then TrimBackticks(s[1..])
    else if s != "" && s[|s| - 1] == '`' then TrimBackticks(s[..|s| - 1])
    else s
  }

  /** The parts as written: a quoted stretch is one part, and dots separate the others. */
  function RawParts(s: string): seq<string>
  {
    if s == "" then []
    else if s[0] == '`' then
      var j := IndexOf(s[1..], '`');
      if j.None? then [TrimBackticks(s)]
      else
        var after := s[j.value + 2..];
        [s[1..1 + j.value]] + RawParts(if after != "" && after[0] == '.' then after[1..] else after)
    else
      var j := IndexOf(s, '.');
      if j.None? then [s] else [s[..j.value]] + RawParts(s[j.value + 1..])
  }

  /** Parts lose the white space around them, and empty ones are dropped. */
  function Cleaned(parts: seq<string>): seq<string>
  {
    if parts == [] then []
    else
      var head, rest := Trim(parts[0]), Cleaned(parts[1..]);
      if head == "" then rest else [head] + rest
  }

  lemma {:induction false} CleanedAppend(parts: seq<string>, p: string)
    ensures Cleaned(parts + [p]) == Cleaned(parts) + if Trim(p) == "" then [] else [Trim(p)]
  {
    if parts == [] {
      assert [p][1..] == [];
    } else {
      assert (parts + [p])[1..] == parts[1..] + [p];
      CleanedAppend(parts[1..], p);
    }
  }

  function PartsOf(ident: string): seq<string> { Cleaned(RawParts(Trim(ident))) }

  /** Where splitting goes on after the part at i, if it does. */
  function NextPart(s: string, i: nat): Option<nat>
    requires i < |s|
  {
    var j := if s[i] == '`' then IndexOf(s[i + 1..], '`') else IndexOf(s[i..], '.');
    if j.None? then None
    else if s[i] != '`' then Some(i + j.value + 1)
    else
      var next := i + j.value + 2;
      Some(if next < |s| && s[next] == '.' then next + 1 else next)
  }

  lemma Reslice(s: string, i: nat, a: nat, b: nat)
    requires i + a <= i + b <= |s|
    ensures s[i..][a..b] == s[i + a..i + b] && s[i..][a..] == s[i + a..]
  {
  }

  lemma RawPartsPlain(s: string)
    requires s != "" && s[0] != '`'
    ensures
      var j := IndexOf(s, '.');
      RawParts(s) == if j.None? then [s] else [s[..j.value]] + RawParts(s[j.value + 1..])
  {
    hide IndexOf;
  }

  lemma RawPartsQuoted(s: string)
    requires s != "" && s[0] == '`'
    ensures
      var j := IndexOf(s[1..], '`');
      if j.None? then RawParts(s) == [TrimBackticks(s)]
      else
        var after := s[j.value + 2..];
        RawParts(s) == [s[1..1 + j.value]] + RawParts(if after != "" && after[0] == '.' then after[1..] else after)
  {
    hide IndexOf, TrimBackticks;
  }

  lemma {:induction false} SplitPlain(s: string, i: nat)
    requires i < |s| && s[i] != '`'
    ensures NextPart(s, i) == None ==> RawParts(s[i..]) == [s[i..]]
    ensures
      var next := NextPart(s, i);
      next.Some? ==> i < next.value <= |s| && RawParts(s[i..]) == [s[i..next.value - 1]] + RawParts(s[next.value..])
  {
    hide IndexOf, RawParts;
    var j := IndexOf(s[i..], '.');
    RawPartsPlain(s[i..]);
    if j.Some? {
      Reslice(s, i, 0, j.value);
      Reslice(s, i, j.value + 1, j.value + 1);
    }
  }

  lemma {:induction false} SplitQuoted(s: string, i: nat)
    requires i < |s| && s[i] == '`'
    ensures NextPart(s, i) == None ==> RawParts(s[i..]) == [TrimBackticks(s[i..])]
    ensures
      var next, j := NextPart(s, i), IndexOf(s[i + 1..], '`');
      next.Some? ==> next.value <= |s| && RawParts(s[i..]) == [s[i + 1..i + 1 + j.value]] + RawParts(s[next.value..])
  {
    hide IndexOf, TrimBackticks, RawParts;
    var j := IndexOf(s[i + 1..], '`');
    Reslice(s, i, 1, 1);
    RawPartsQuoted(s[i..]);
    if j.Some? {
      Reslice(s, i, 1, 1 + j.value);
      Reslice(s, i, j.value + 2, j.value + 2);
      if i + j.value + 2 < |s| {
        Reslice(s, i + j.value + 2, 1, 1);
      }
    }
  }

  lemma Onward(done: seq<string>, part: string, more: seq<string>)
    ensures done + ([part] + more) == done + [part] + more
  {
  }

  method SplitIdent(written: string) returns (out: seq<string>)
    ensures out == PartsOf(written)
  {
    hide Trim, TrimBackticks, IndexOf, Cleaned, RawParts;
    var ident := Trim(written);
    var parts: seq<string>, i := [], 0;
    assert ident[0..] == ident;
    while i < |ident|
      invariant i <= |ident| && RawParts(ident) == parts + RawParts(ident[i..])
    {
      if ident[i] == '`' {
        SplitQuoted(ident, i);
        var j := IndexOf(ident[i + 1..], '`');
        if j.None? {
          parts := parts + [TrimBackticks(ident[i..])];
          break;
        }
        Onward(parts, ident[i + 1..i + 1 + j.value], RawParts(ident[NextPart(ident, i).value..]));
        parts := parts + [ident[i + 1..i + 1 + j.value]];
        i := i + j.value + 2;
        if i < |ident| && ident[i] == '.' {
          i := i + 1;
        }
        continue;
      }
      SplitPlain(ident, i);
      var j := IndexOf(ident[i..], '.');
      if j.None? {
        parts := parts + [ident[i..]];
        break;
      }
      Onward(parts, ident[i..i + j.value], RawParts(ident[i + j.value + 1..]));
      parts := parts + [ident[i..i + j.value]];
      i := i + j.value + 1;
    }
    NothingToSplit(ident[|ident|..]);
    assert parts == RawParts(ident);
    out := KeepNonEmpty(parts);
  }

  lemma NothingToSplit(s: string)
    requires s == ""
    ensures RawParts(s) == []
  {
  }

  method KeepNonEmpty(parts: seq<string>) returns (out: seq<string>)
    ensures out == Cleaned(parts)
  {
    hide Trim;
    out := [];
    for k := 0 to |parts|
      invariant out == Cleaned(parts[..k])
    {
      var p := Trim(parts[k]);
      assert parts[..k + 1] == parts[..k] + [parts[k]];
      CleanedAppend(parts[..k], parts[k]);
      if p != "" {
        out := out + [p];
      }
    }
    assert parts[..|parts|] == parts;
  }

  /** The name read is what the statement starts with, so the rest of it begins right after. */
  lemma {:induction false} IdentIsPrefix(statement: string)
    ensures IdentOf(statement) <= Trim(statement)
    ensures IdentOf(Trim(statement)) == IdentOf(statement)
  {
    var t := Trim(statement);
    TrimIsTrimmed(statement);
    TrimRightIsPrefix(t[..IdentEnd(t)]);
  }

  // -------------------------------------------------------------- names round trip

  /** How a client may write one part of a name. */
  datatype Name = Plain(text: string) | Quoted(text: string)

  predicate Writable(n: Name)
  {
    if n.Plain? then n.text != "" && forall c | c in n.text :: IsIdentChar(c) else '`' !in n.text
  }

  function Written(n: Name): string { if n.Plain? then n.text else "`" + n.text + "`" }

  function Dotted(names: seq<Name>): string
    requires names != []
  {
    if |names| == 1 then Written(names[0]) else Written(names[0]) + "." + Dotted(names[1..])
  }

  function Texts(names: seq<Name>): seq<string> { if names == [] then [] else [names[0].text] + Texts(names[1..]) }

  /** What may follow a name in a statement: nothing, or a character no name has. */
  predicate Follows(tail: string) { tail == "" || (tail[0] != '.' && tail[0] != '`' && !IsIdentChar(tail[0])) }

  lemma {:induction false} IdentEndPlain(p: string, t: string)
    requires forall c | c in p :: c == '.' || IsIdentChar(c)
    ensures IdentEnd(p + t) == |p| + IdentEnd(t)
  {
    if p == "" {
      assert p + t == t;
    } else {
      assert (p + t)[0] == p[0] && p[0] in p && (p + t)[1..] == p[1..] + t;
      IdentEndPlain(p[1..], t);
    }
  }

  lemma {:induction false} QuoteFound(q: string, c: char, t: string)
    requires c !in q
    ensures IndexOf(q + [c] + t, c) == Some(|q|)
  {
    if q != "" {
      assert (q + [c] + t)[1..] == q[1..] + [c] + t;
      QuoteFound(q[1..], c, t);
    }
  }

  lemma IdentEndWritten(n: Name, t: string)
    requires Writable(n)
    ensures IdentEnd(Written(n) + t) == |Written(n)| + IdentEnd(t)
  {
    if n.Plain? {
      IdentEndPlain(n.text, t);
    } else {
      var s := Written(n) + t;
      assert s[1..] == n.text + ['`'] + t;
      QuoteFound(n.text, '`', t);
      assert s[|n.text| + 2..] == t;
    }
  }

  lemma {:induction false} IdentEndDotted(names: seq<Name>, t: string)
    requires names != [] && forall n | n in names :: Writable(n)
    ensures IdentEnd(Dotted(names) + t) == |Dotted(names)| + IdentEnd(t)
  {
    if |names| == 1 {
      IdentEndWritten(names[0], t);
    } else {
      var rest := Dotted(names[1..]) + t;
      assert Dotted(names) + t == Written(names[0]) + ("." + rest);
      IdentEndWritten(names[0], "." + rest);
      IdentEndPlain(".", rest);
      IdentEndDotted(names[1..], t);
    }
  }

  lemma {:induction false} DottedTrimmed(names: seq<Name>)
    requires names != [] && forall n | n in names :: Writable(n)
    ensures Dotted(names) != "" && Trimmed(Dotted(names))
  {
    var n, w := names[0], Written(names[0]);
    assert Writable(n);
    assert w != "" && (w[0] in n.text || w[0] == '`') && (w[|w| - 1] in n.text || w[|w| - 1] == '`');
    assert !IsSpace(w[0]) && !IsSpace(w[|w| - 1]);
    if |names| > 1 {
      DottedTrimmed(names[1..]);
    }
  }

  lemma {:induction false} RawPartsOne(n: Name)
    requires Writable(n)
    ensures RawParts(Written(n)) == [n.text]
  {
    var s := Written(n);
    if n.Plain? {
      assert s[0] in n.text && '.' !in s;
    } else {
      assert s[1..] == n.text + ['`'] + "";
      QuoteFound(n.text, '`', "");
      assert s[|n.text| + 2..] == "" && s[1..1 + |n.text|] == n.text;
    }
  }

  lemma {:induction false} RawPartsMore(n: Name, more: string)
    requires Writable(n)
    ensures RawParts(Written(n) + "." + more) == [n.text] + RawParts(more)
  {
    if n.Plain? {
      RawPartsMorePlain(n.text, more);
    } else {
      RawPartsMoreQuoted(n.text, more);
    }
  }

  lemma {:induction false} RawPartsMorePlain(p: string, more: string)
    requires p != "" && '.' !in p && '`' !in p
    ensures RawParts(p + "." + more) == [p] + RawParts(more)
  {
    hide IndexOf, TrimBackticks;
    var s := p + ['.'] + more;
    assert s[0] == p[0] && p[0] in p;
    QuoteFound(p, '.', more);
    assert s[|p| + 1..] == more && s[..|p|] == p;
  }

  lemma {:induction false} RawPartsMoreQuoted(q: string, more: string)
    requires '`' !in q
    ensures RawParts("`" + q + "`" + "." + more) == [q] + RawParts(more)
  {
    hide IndexOf, TrimBackticks;
    var s := "`" + q + "`" + "." + more;
    assert s[1..] == q + ['`'] + ("." + more);
    QuoteFound(q, '`', "." + more);
    assert s[|q| + 2..] == "." + more && s[1..1 + |q|] == q;
    assert ("." + more)[1..] == more;
  }

  lemma {:induction false} RawPartsDotted(names: seq<Name>)
    requires names != [] && forall n | n in names :: Writable(n)
    ensures RawParts(Dotted(names)) == Texts(names)
  {
    if |names| == 1 {
      RawPartsOne(names[0]);
      assert names[1..] == [];
    } else {
      RawPartsMore(names[0], Dotted(names[1..]));
      RawPartsDotted(names[1..]);
    }
  }

  /** Whatever names are written at the start of a statement, the scanner stops right after them
      and the splitter gives back their texts, cleaned. */
  lemma {:induction false} NamesReadBack(lead: string, names: seq<Name>, tail: string)
    requires names != [] && (forall n | n in names :: Writable(n)) && Follows(tail)
    requires forall c | c in lead :: IsSpace(c)
    ensures IdentOf(lead + Dotted(names) + tail) == Dotted(names)
    ensures PartsOf(Dotted(names)) == Cleaned(Texts(names))
  {
    hide IsSpace, IsIdentChar, IndexOf, RawParts;
    var d, rest := Dotted(names), TrimRight(tail);
    DottedTrimmed(names);
    TrimAround(lead, d, tail);
    TrimRightIsPrefix(tail);
    IdentEndDotted(names, rest);
    assert IdentEnd(rest) == 0;
    assert (d + rest)[..|d|] == d;
    TrimIsTrimmed(d);
    RawPartsDotted(names);
  }

  lemma {:induction false} CleanedIff(parts: seq<string>)
    ensures |Cleaned(parts)| <= |parts|
    ensures Cleaned(parts) == parts <==> forall p | p in parts :: p != "" && Trimmed(p)
  {
    if parts != [] {
      CleanedIff(parts[1..]);
      TrimIsTrimmed(parts[0]);
      assert forall p :: p in parts <==> p == parts[0] || p in parts[1..];
      if Cleaned(parts) == parts {
        assert Cleaned(parts)[1..] == Cleaned(parts[1..]);
      }
    }
  }

  /** Names survive the round trip exactly when none is empty and none has white space at an end. */
  lemma {:induction false} RoundTripIff(lead: string, names: seq<Name>, tail: string)
    requires names != [] && (forall n | n in names :: Writable(n)) && Follows(tail)
    requires forall c | c in lead :: IsSpace(c)
    ensures PartsOf(IdentOf(lead + Dotted(names) + tail)) == Texts(names)
      <==> forall t | t in Texts(names) :: t != "" && Trimmed(t)
  {
    NamesReadBack(lead, names, tail);
    CleanedIff(Texts(names));
  }

  lemma {:induction false} NoTicksToTrim(q: string)
    requires '`' !in q
    ensures TrimBackticks(q) == q
  {
    assert q != "" ==> q[0] in q && q[|q| - 1] in q;
  }

  /** A quote that is never closed reaches to the end of the statement, and is one part. */
  lemma {:induction false} UnclosedQuote(q: string)
    requires '`' !in q && (q == "" || !IsSpace(q[|q| - 1]))
    ensures IdentOf("`" + q) == "`" + q
    ensures PartsOf("`" + q) == if Trim(q) == "" then [] else [Trim(q)]
  {
    hide Trim, RawParts, IdentEnd;
    var s := "`" + q;
    TrimIsTrimmed(s);
    assert s[|s| - 1] == if q == "" then '`' else q[|q| - 1];
    assert Trimmed(s);
    UnclosedRaw(q);
    assert s[..|s|] == s;
    assert Trim(s) == s && PartsOf(s) == Cleaned([q]);
    CleanedAppend([], q);
    assert [] + [q] == [q] && Cleaned([]) == [];
  }

  lemma UnclosedRaw(q: string)
    requires '`' !in q
    ensures RawParts("`" + q) == [q] && IdentEnd("`" + q) == |q| + 1
  {
    var s := "`" + q;
    assert s[1..] == q && IndexOf(q, '`') == None;
    NoTicksToTrim(q);
    assert TrimBackticks(s) == TrimBackticks(q);
  }

  function WithoutBackticks(s: string): (r: string)
    ensures '`' !in r
    ensures '`' !in s ==> r == s
  {
    if s == "" then "" else (if s[0] == '`' then "" else [s[0]]) + WithoutBackticks(s[1..])
  }

  /** Quoting drops the backticks and keeps every other character where it was. */
  lemma {:induction false} OnlyTicksDropped(a: string, b: string)
    ensures WithoutBackticks(a + b) == WithoutBackticks(a) + WithoutBackticks(b)
    ensures WithoutBackticks("`") == ""
  {
    hide WithoutBackticks;
    if a == "" {
      EmptyTicks();
      assert a + b == b && WithoutBackticks(a) + WithoutBackticks(b) == WithoutBackticks(b);
    } else {
      OnlyTicksDropped(a[1..], b);
      assert (a + b)[1..] == a[1..] + b;
      TickStep(a);
      TickStep(a + b);
      var head := if a[0] == '`' then "" else [a[0]];
      assert head + (WithoutBackticks(a[1..]) + WithoutBackticks(b)) ==
        (head + WithoutBackticks(a[1..])) + WithoutBackticks(b);
    }
    EmptyTicks();
  }

  lemma EmptyTicks()
    ensures WithoutBackticks("") == WithoutBackticks("`") == ""
  {
  }

  lemma TickStep(s: string)
    requires s != ""
    ensures WithoutBackticks(s) == (if s[0] == '`' then "" else [s[0]]) + WithoutBackticks(s[1..])
  {
  }

  function QuoteIdent(name: string): string { "`" + WithoutBackticks(name) + "`" }

  // ------------------------------------------------------------ managed locations

  predicate SegmentChar(c: char) { c == '.' || IsIdentChar(c) }

  /** Can stand as one path segment inside a quoted location. */
  predicate SafeSegment(s: string) { s != "" && s != "." && s != ".." && forall c | c in s :: SegmentChar(c) }

  method IsSafeSegment(s: string) returns (safe: bool)
    ensures safe <==> SafeSegment(s)
  {
    if s == "" || s == "." || s == ".." {
      return false;
    }
    for i := 0 to |s|
      invariant forall c | c in s[..i] :: SegmentChar(c)
    {
      assert s[..i + 1] == s[..i] + [s[i]];
      if !SegmentChar(s[i]) {
        return false;
      }
    }
    assert s[..|s|] == s;
    safe := true;
  }

  /** Case folding, as far as it reaches the ASCII letters: the long s and the Kelvin sign do. */
  function Folded(c: char): char
  {
    if 'A' <= c <= 'Z' then c - 'A' + 'a' else if c == '\U{17f}' then 's' else if c == '\U{212a}' then 'k' else c
  }

  predicate IsHive(s: string)
  {
    var hive := "hive_metastore";
    |s| == |hive| && forall i | 0 <= i < |s| :: Folded(s[i]) == hive[i]
  }

  datatype ExternalTable = ExternalTable(catalog: string, schema: string, name: string, location: string)

  /** What becomes of a CREATE TABLE: left alone, refused for one of its parts, or rewritten
      to a head, the rest of the statement to put a location clause in, and the table to register. */
  datatype Plan =
    | LeftAlone
    | Refused(which: string, part: string)
    | Rewritten(head: string, body: string, table: ExternalTable)

  function Head(orReplace: bool): string
  {
    if orReplace then "CREATE OR REPLACE TABLE " else "CREATE TABLE IF NOT EXISTS "
  }

  function Location(root: string, catalog: string, schema: string, name: string): string
  {
    root + "/" + catalog + "/" + schema + "/" + name
  }

  ghost predicate Planned(hasLocation: bool, orReplace: bool, after: string, root: string, plan: Plan)
  {
    var parts := PartsOf(IdentOf(after));
    if hasLocation || |parts| < 3 || IsHive(parts[0]) then plan == LeftAlone
    else if exists i | 0 <= i < 3 :: !SafeSegment(parts[i]) then
      plan.Refused? && !SafeSegment(plan.part) &&
      ((plan.which == "catalog" && plan.part == parts[0]) || (plan.which == "schema" && plan.part == parts[1]) ||
       (plan.which == "table" && plan.part == parts[2]))
    else
      && plan.Rewritten?
      && plan.head == Head(orReplace) + QuoteIdent(parts[2])
      && (exists more :: Trim(after) == IdentOf(after) + more && plan.body == Trim(more))
      && plan.table == ExternalTable(parts[0], parts[1], parts[2], Location(root, parts[0], parts[1], parts[2]))
  }

  /** after is the statement past its CREATE TABLE keywords. */
  method RewriteCreateTable(hasLocation: bool, orReplace: bool, after: string, root: string) returns (plan: Plan)
    ensures Planned(hasLocation, orReplace, after, root, plan)
  {
    hide IdentOf, Trim, RawParts, Cleaned, SafeSegment, IsHive, QuoteIdent;
    if hasLocation {
      return LeftAlone;
    }
    var rest := Trim(after);
    var ident := FirstIdent(rest);
    IdentIsPrefix(after);
    var parts := SplitIdent(ident);
    if |parts| < 3 {
      return LeftAlone;
    }
    if IsHive(parts[0]) {
      return LeftAlone;
    }
    var labelled := map["catalog" := parts[0], "schema" := parts[1], "table" := parts[2]];
    var todo := labelled.Keys;
    while todo != {}
      invariant todo <= labelled.Keys
      invariant forall which | which in labelled && which !in todo :: SafeSegment(labelled[which])
    {
      var which := Pick(todo);
      todo := todo - {which};
      var safe := IsSafeSegment(labelled[which]);
      if !safe {
        return Refused(which, labelled[which]);
      }
    }
    assert SafeSegment(labelled["catalog"]) && SafeSegment(labelled["schema"]) && SafeSegment(labelled["table"]);
    assert rest == ident + rest[|ident|..];
    plan := Rewritten(Head(orReplace) + QuoteIdent(parts[2]), Trim(rest[|ident|..]),
      ExternalTable(parts[0], parts[1], parts[2], Location(root, parts[0], parts[1], parts[2])));
  }

  /** What a rewritten statement does: it replaces a table only when the one given did, and otherwise keeps
      one that is there; and the place it names is the root, then the catalog, the schema and the name. */
  lemma RewriteSays(orReplace: bool, after: string, root: string, plan: Plan)
    requires Planned(false, orReplace, after, root, plan) && plan.Rewritten?
    ensures orReplace <==> "CREATE OR REPLACE TABLE " <= plan.head
    ensures !orReplace <==> "CREATE TABLE IF NOT EXISTS " <= plan.head
    ensures plan.head[|plan.head| - |QuoteIdent(plan.table.name)|..] == QuoteIdent(plan.table.name)
    ensures
      var t, parts := plan.table, PartsOf(IdentOf(after));
      && |parts| >= 3 && [t.catalog, t.schema, t.name] == parts[..3]
      && t.location == root + "/" + t.catalog + "/" + t.schema + "/" + t.name
      && '/' !in t.catalog && '/' !in t.schema && '/' !in t.name
  {
    hide IdentOf, PartsOf, Trim, IsHive, QuoteIdent;
    var t, parts := plan.table, PartsOf(IdentOf(after));
    assert parts[..3] == [parts[0], parts[1], parts[2]];
    HeadsDiffer(orReplace, QuoteIdent(t.name));
    forall s | s in [t.catalog, t.schema, t.name] ensures '/' !in s {
      assert SafeSegment(s);
    }
    assert t.catalog in [t.catalog, t.schema, t.name] && t.schema in [t.catalog, t.schema, t.name];
    assert t.name in [t.catalog, t.schema, t.name];
  }

  lemma HeadsDiffer(orReplace: bool, name: string)
    ensures
      var head := Head(orReplace) + name;
      && (orReplace <==> "CREATE OR REPLACE TABLE " <= head) && (!orReplace <==> "CREATE TABLE IF NOT EXISTS " <= head)
      && head[|head| - |name|..] == name
  {
    var h0, h1 := "CREATE TABLE IF NOT EXISTS ", "CREATE OR REPLACE TABLE ";
    assert (h0 + name)[7] == 'T' && (h1 + name)[7] == 'O';
    assert (h0 + name)[|h0|..] == name && (h1 + name)[|h1|..] == name;
  }

  /** A statement is left alone exactly when it has a location already, its name has fewer than three parts,
      or it is the hive metastore's, however that is capitalised. */
  lemma LeftAloneIff(hasLocation: bool, orReplace: bool, after: string, root: string, plan: Plan)
    requires Planned(hasLocation, orReplace, after, root, plan)
    ensures plan.LeftAlone? <==>
      hasLocation || |PartsOf(IdentOf(after))| < 3 || IsHive(PartsOf(IdentOf(after))[0])
    ensures plan.Refused? <==>
      !plan.LeftAlone? && exists i | 0 <= i < 3 :: !SafeSegment(PartsOf(IdentOf(after))[i])
    ensures plan.Refused? ==>
      exists i | 0 <= i < 3 ::
        && plan.part == PartsOf(IdentOf(after))[i] && plan.which == ["catalog", "schema", "table"][i]
        && !SafeSegment(plan.part)
  {
    hide IdentOf, PartsOf, Trim, IsHive, SafeSegment;
  }

  function Lower(s: string): string
  {
    seq(|s|, i requires 0 <= i < |s| => if 'A' <= s[i] <= 'Z' then s[i] - 'A' + 'a' else s[i])
  }

  /** Of names in ASCII, those that read hive_metastore in lower case. */
  lemma HiveInAnyCase(s: string)
    requires forall c | c in s :: c < '\U{80}'
    ensures IsHive(s) <==> Lower(s) == "hive_metastore"
  {
    forall i | 0 <= i < |s| ensures Folded(s[i]) == Lower(s)[i] {
      assert s[i] in s;
    }
  }

  const LOWER := "abcdefghijklmnopqrstuvwxyz"
  const UPPER := "ABCDEFGHIJKLMNOPQRSTUVWXYZ"

  /** Names are made of letters, digits, the underscore and the hyphen: of no white space, quote, dot or slash. */
  lemma NameCharacters(c: char)
    ensures IsIdentChar(c) <==> c in LOWER || c in UPPER || c in "0123456789" || c in "_-"
  {
    LowerCase(c);
    UpperCase(c);
    Digits(c);
    hide LOWER, UPPER;
  }

  lemma LowerCase(c: char)
    ensures c in LOWER <==> 'a' <= c <= 'z'
  {
    if 'a' <= c <= 'z' {
      assert LOWER[c as int - 'a' as int] == c;
    }
  }

  lemma UpperCase(c: char)
    ensures c in UPPER <==> 'A' <= c <= 'Z'
  {
    if 'A' <= c <= 'Z' {
      assert UPPER[c as int - 'A' as int] == c;
    }
  }

  lemma Digits(c: char)
    ensures c in "0123456789" <==> '0' <= c <= '9'
  {
    if '0' <= c <= '9' {
      assert "0123456789"[c as int - '0' as int] == c;
    }
  }

  /** A segment is safe exactly when it is made of name characters and dots and goes neither nowhere nor up. */
  lemma SafeIff(s: string)
    ensures SafeSegment(s) <==> (forall c | c in s :: c == '.' || IsIdentChar(c)) && s !in {"", ".", ".."}
  {
  }

  lemma {:induction false} FirstSlash(a: string, x: string, b: string, y: string)
    requires '/' !in a && '/' !in b && a + "/" + x == b + "/" + y
    ensures a == b && x == y
  {
    QuoteFound(a, '/', x);
    QuoteFound(b, '/', y);
    assert a == (a + "/" + x)[..|a|] && x == (a + "/" + x)[|a| + 1..];
    assert b == (b + "/" + y)[..|b|] && y == (b + "/" + y)[|b| + 1..];
  }

  /** Two safe names under one root share a location only when they are the same name. */
  lemma {:induction false} LocationInjective(root: string, a: ExternalTable, b: ExternalTable)
    requires forall s | s in [a.catalog, a.schema, a.name, b.catalog, b.schema, b.name] :: SafeSegment(s)
    requires Location(root, a.catalog, a.schema, a.name) == Location(root, b.catalog, b.schema, b.name)
    ensures a.catalog == b.catalog && a.schema == b.schema && a.name == b.name
  {
    assert forall s | s in [a.catalog, a.schema, a.name, b.catalog, b.schema, b.name] :: '/' !in s;
    var atail, btail := a.schema + "/" + a.name, b.schema + "/" + b.name;
    var skip := |root| + 1;
    assert Location(root, a.catalog, a.schema, a.name)[skip..] == a.catalog + "/" + atail;
    assert Location(root, b.catalog, b.schema, b.name)[skip..] == b.catalog + "/" + btail;
    FirstSlash(a.catalog, atail, b.catalog, btail);
    FirstSlash(a.schema, a.name, b.schema, b.name);
  }

  lemma SafeIsQuotable(s: string)
    requires SafeSegment(s)
    ensures '`' !in s && s != "" && Trimmed(s)
  {
    assert forall c | c in s :: SegmentChar(c);
    assert s[0] in s && s[|s| - 1] in s;
  }

  /** The statement that comes out names the table it registers: the name in its head reads back. */
  lemma {:induction false} HeadReadsBack(name: string, tail: string)
    requires SafeSegment(name) && Follows(tail)
    ensures PartsOf(IdentOf(QuoteIdent(name) + tail)) == [name]
  {
    hide SafeSegment, Trimmed, IdentOf, PartsOf, Cleaned, Follows, WithoutBackticks;
    SafeIsQuotable(name);
    var names := [Quoted(name)];
    assert names[1..] == [];
    assert Texts(names) == [name];
    RoundTripIff("", names, tail);
    assert "" + Dotted(names) + tail == QuoteIdent(name) + tail;
  }

  /** Any two CREATE TABLE statements rewritten under one root are given one location exactly when the
      first three parts of their names agree. */
  lemma {:induction false} OneLocationIff(
      root: string, replace0: bool, replace1: bool, after0: string, after1: string, plan0: Plan, plan1: Plan)
    requires Planned(false, replace0, after0, root, plan0) && plan0.Rewritten?
    requires Planned(false, replace1, after1, root, plan1) && plan1.Rewritten?
    ensures |PartsOf(IdentOf(after0))| >= 3 && |PartsOf(IdentOf(after1))| >= 3
    ensures plan0.table.location == plan1.table.location
      <==> PartsOf(IdentOf(after0))[..3] == PartsOf(IdentOf(after1))[..3]
  {
    hide IdentOf, PartsOf, SafeSegment, IsHive, Trim, Location;
    var p, q := PartsOf(IdentOf(after0)), PartsOf(IdentOf(after1));
    assert p[..3] == [p[0], p[1], p[2]] && q[..3] == [q[0], q[1], q[2]];
    if plan0.table.location == plan1.table.location {
      LocationInjective(root, plan0.table, plan1.table);
    }
  }

  /** So a name's fourth part, and any after it, is lost: two names that differ only there are one
      external table in one place. */
  lemma {:induction false} FourthPartIsLost(root: string, orReplace: bool, plan0: Plan, plan1: Plan)
    requires Planned(false, orReplace, "a.b.c.d", root, plan0) && Planned(false, orReplace, "a.b.c.e", root, plan1)
    ensures PartsOf(IdentOf("a.b.c.d")) == ["a", "b", "c", "d"] && PartsOf(IdentOf("a.b.c.e")) == ["a", "b", "c", "e"]
    ensures plan0.Rewritten? && plan1.Rewritten? && plan0.table == plan1.table
  {
    hide IdentOf, PartsOf, Planned;
    FourParts("d");
    FourParts("e");
    assert "a.b.c." + "d" == "a.b.c.d" && "a.b.c." + "e" == "a.b.c.e";
    IsRewritten(orReplace, "a.b.c.d", root, "d", plan0);
    IsRewritten(orReplace, "a.b.c.e", root, "e", plan1);
  }

  lemma FourParts(last: string)
    requires Writable(Plain(last)) && Trimmed(last)
    ensures PartsOf(IdentOf("a.b.c." + last)) == ["a", "b", "c", last]
  {
    hide IdentOf, PartsOf, Dotted, Texts;
    FourWritten(last);
    var names := [Plain("a"), Plain("b"), Plain("c"), Plain(last)];
    assert "" + Dotted(names) + "" == "a.b.c." + last;
    RoundTripIff("", names, "");
  }

  lemma FourWritten(last: string)
    ensures
      var names := [Plain("a"), Plain("b"), Plain("c"), Plain(last)];
      Texts(names) == ["a", "b", "c", last] && Dotted(names) == "a.b.c." + last
  {
    var fourth := [Plain(last)];
    var third := [Plain("c")] + fourth;
    var second := [Plain("b")] + third;
    var names := [Plain("a")] + second;
    assert names[1..] == second && second[1..] == third && third[1..] == fourth && fourth[1..] == [];
    assert Texts(fourth) == [last];
    assert Texts(third) == ["c", last];
    assert Texts(second) == ["b", "c", last];
    assert Dotted(third) == "c." + last;
    assert Dotted(second) == "b.c." + last;
    assert names == [Plain("a"), Plain("b"), Plain("c"), Plain(last)];
  }

  lemma IsRewritten(orReplace: bool, after: string, root: string, last: string, plan: Plan)
    requires PartsOf(IdentOf(after)) == ["a", "b", "c", last]
    requires Planned(false, orReplace, after, root, plan)
    ensures plan.Rewritten?
    ensures plan.table == ExternalTable("a", "b", "c", Location(root, "a", "b", "c"))
  {
    hide IdentOf, PartsOf, Trim, Location;
  }

  /** Of statements that begin with a written name: each also goes on with exactly what followed it. */
  lemma {:induction false} SameLocationIff(
      root: string, replace0: bool, replace1: bool, names0: seq<Name>, names1: seq<Name>,
      tail0: string, tail1: string, plan0: Plan, plan1: Plan)
    requires names0 != [] && names1 != [] && Follows(tail0) && Follows(tail1)
    requires (forall n | n in names0 :: Writable(n)) && (forall n | n in names1 :: Writable(n))
    requires Planned(false, replace0, Dotted(names0) + tail0, root, plan0) && plan0.Rewritten?
    requires Planned(false, replace1, Dotted(names1) + tail1, root, plan1) && plan1.Rewritten?
    ensures |Cleaned(Texts(names0))| >= 3 && |Cleaned(Texts(names1))| >= 3
    ensures plan0.body == Trim(TrimRight(tail0)) && plan1.body == Trim(TrimRight(tail1))
    ensures plan0.table.location == plan1.table.location <==> Cleaned(Texts(names0))[..3] == Cleaned(Texts(names1))[..3]
  {
    hide Planned, Dotted, Texts, Cleaned, IdentOf, PartsOf, Trim, TrimRight;
    PlannedFor(root, replace0, names0, tail0, plan0);
    PlannedFor(root, replace1, names1, tail1, plan1);
    OneLocationIff(root, replace0, replace1, Dotted(names0) + tail0, Dotted(names1) + tail1, plan0, plan1);
  }

  lemma {:induction false} PlannedFor(root: string, orReplace: bool, names: seq<Name>, tail: string, plan: Plan)
    requires names != [] && Follows(tail) && forall n | n in names :: Writable(n)
    requires Planned(false, orReplace, Dotted(names) + tail, root, plan) && plan.Rewritten?
    ensures PartsOf(IdentOf(Dotted(names) + tail)) == Cleaned(Texts(names)) && plan.body == Trim(TrimRight(tail))
  {
    hide IdentOf, RawParts, Cleaned, Texts, Dotted, SafeSegment, IsHive, Follows, Writable, Trim, TrimRight, Location;
    var d := Dotted(names);
    assert "" + d + tail == d + tail;
    NamesReadBack("", names, tail);
    DottedTrimmed(names);
    TrimAround("", d, tail);
    var more :| Trim(d + tail) == d + more && plan.body == Trim(more);
    assert more == (d + more)[|d|..] == TrimRight(tail);
  }
}
