// White space, and trimming it.
module Text {
  predicate IsSpace(c: char)
  {
    || '\t' <= c <= '\r' || c in " \U{85}\U{a0}\U{1680}\U{2028}\U{2029}\U{202f}\U{205f}\U{3000}"
    || '\U{2000}' <= c <= '\U{200a}'
  }

  function TrimLeft(s: string): string { if s != "" && IsSpace(s[0]) then TrimLeft(s[1..]) else s }

  function TrimRight(s: string): string { if s != "" && IsSpace(s[|s| - 1]) then TrimRight(s[..|s| - 1]) else s }

  function Trim(s: string): string { TrimRight(TrimLeft(s)) }

  /** Neither end is white space. */
  predicate Trimmed(s: string) { s == "" || (!IsSpace(s[0]) && !IsSpace(s[|s| - 1])) }

  lemma {:induction false} TrimRightIsPrefix(s: string)
    ensures TrimRight(s) <= s
    ensures TrimRight(s) == "" || !IsSpace(TrimRight(s)[|TrimRight(s)| - 1])
  {
    if s != "" && IsSpace(s[|s| - 1]) {
      TrimRightIsPrefix(s[..|s| - 1]);
    }
  }

  lemma {:induction false} TrimLeftStarts(s: string)
    ensures TrimLeft(s) == "" || !IsSpace(TrimLeft(s)[0])
  {
    if s != "" && IsSpace(s[0]) {
      TrimLeftStarts(s[1..]);
    }
  }

  lemma {:induction false} TrimIsTrimmed(s: string)
    ensures Trimmed(Trim(s))
    ensures Trim(s) == s <==> Trimmed(s)
    ensures Trim(Trim(s)) == Trim(s)
  {
    TrimLeftStarts(s);
    TrimRightIsPrefix(TrimLeft(s));
  }

  lemma {:induction false} LeftSplit(s: string)
    ensures exists lead :: s == lead + TrimLeft(s) && AllSpace(lead)
  {
    if s != "" && IsSpace(s[0]) {
      LeftSplit(s[1..]);
      var lead :| s[1..] == lead + TrimLeft(s[1..]) && AllSpace(lead);
      assert s == ([s[0]] + lead) + TrimLeft(s) && AllSpace([s[0]] + lead);
    } else {
      assert s == "" + TrimLeft(s) && AllSpace("");
    }
  }

  lemma {:induction false} RightSplit(s: string)
    ensures exists tail :: s == TrimRight(s) + tail && AllSpace(tail)
  {
    if s != "" && IsSpace(s[|s| - 1]) {
      RightSplit(s[..|s| - 1]);
      var tail :| s[..|s| - 1] == TrimRight(s[..|s| - 1]) + tail && AllSpace(tail);
      assert s == TrimRight(s) + (tail + [s[|s| - 1]]) && AllSpace(tail + [s[|s| - 1]]);
    } else {
      assert s == TrimRight(s) + "" && AllSpace("");
    }
  }

  predicate AllSpace(s: string) { forall c | c in s :: IsSpace(c) }

  /** Trimming takes white space off the ends and nothing else. */
  lemma {:induction false} TrimTakesSpace(s: string)
    ensures exists lead, tail :: s == lead + Trim(s) + tail && AllSpace(lead) && AllSpace(tail)
  {
    LeftSplit(s);
    var lead :| s == lead + TrimLeft(s) && AllSpace(lead);
    RightSplit(TrimLeft(s));
    var tail :| TrimLeft(s) == TrimRight(TrimLeft(s)) + tail && AllSpace(tail);
    assert s == lead + Trim(s) + tail;
  }

  /** Blanks, tabs and line breaks are white space; of the printable ASCII characters only the blank is. */
  lemma AsciiSpace(c: char)
    requires c < '\U{80}'
    ensures IsSpace(c) <==> c in " \t\n\r\U{b}\U{c}"
  {
  }

  lemma {:induction false} TrimLeftLead(lead: string, s: string)
    requires (forall c | c in lead :: IsSpace(c)) && (s == "" || !IsSpace(s[0]))
    ensures TrimLeft(lead + s) == s
  {
    if lead == "" {
      assert lead + s == s;
    } else {
      assert (lead + s)[0] == lead[0] && lead[0] in lead;
      assert (lead + s)[1..] == lead[1..] + s;
      TrimLeftLead(lead[1..], s);
    }
  }

  lemma {:induction false} TrimRightTail(s: string, tail: string)
    requires s != "" && !IsSpace(s[|s| - 1])
    ensures TrimRight(s + tail) == s + TrimRight(tail)
  {
    if tail == "" {
      assert s + tail == s;
    } else {
      assert (s + tail)[|s + tail| - 1] == tail[|tail| - 1];
      assert (s + tail)[..|s + tail| - 1] == s + tail[..|tail| - 1];
      TrimRightTail(s, tail[..|tail| - 1]);
    }
  }

  lemma {:induction false} TrimAround(lead: string, s: string, tail: string)
    requires (forall c | c in lead :: IsSpace(c)) && s != "" && Trimmed(s)
    ensures Trim(lead + s + tail) == s + TrimRight(tail)
  {
    assert lead + s + tail == lead + (s + tail);
    TrimLeftLead(lead, s + tail);
    TrimRightTail(s, tail);
  }
}
