/** The string operations the parsers rest on. */
module Text {

  /** The white space strings.TrimSpace strips. */
  predicate IsSpace(c: char) {
    c in {'\t', '\n', '\U{000B}', '\U{000C}', '\r', ' ', '\U{0085}', '\U{00A0}', '\U{1680}',
          '\U{2028}', '\U{2029}', '\U{202F}', '\U{205F}', '\U{3000}'}
    || '\U{2000}' <= c <= '\U{200A}'
  }

  function TrimLeft(s: string): string {
    if s != [] && IsSpace(s[0]) then TrimLeft(s[1..]) else s
  }

  function TrimRight(s: string): string {
    if s != [] && IsSpace(s[|s| - 1]) then TrimRight(s[..|s| - 1]) else s
  }

  function Trim(s: string): string { TrimRight(TrimLeft(s)) }

  function Remove(s: string, c: char): string {
    if s == [] then []
    else if s[0] == c then Remove(s[1..], c)
    else [s[0]] + Remove(s[1..], c)
  }

  function TrimPrefix(s: string, prefix: string): string {
    if prefix <= s then s[|prefix|..] else s
  }

  function UpperChar(c: char): char {
    if 'a' <= c <= 'z' then c - 'a' + 'A' else c
  }

  function Upper(s: string): (u: string)
    ensures |u| == |s| && forall i :: 0 <= i < |s| ==> u[i] == UpperChar(s[i])
  {
    if s == [] then [] else [UpperChar(s[0])] + Upper(s[1..])
  }

  predicate AllSpace(s: string) { forall i :: 0 <= i < |s| ==> IsSpace(s[i]) }

  /** Neither end is white space. */
  predicate Trimmed(s: string) { s == [] || (!IsSpace(s[0]) && !IsSpace(s[|s| - 1])) }

  lemma TrimRightEnds(s: string)
    ensures TrimRight(s) <= s
    ensures TrimRight(s) != [] ==> !IsSpace(TrimRight(s)[|TrimRight(s)| - 1])
  {
  }

  lemma TrimLeftEnds(s: string)
    ensures TrimLeft(s) != [] ==> !IsSpace(TrimLeft(s)[0])
  {
  }

  lemma TrimIsTrimmed(s: string)
    ensures Trimmed(Trim(s))
  {
    TrimLeftEnds(s);
    TrimRightEnds(TrimLeft(s));
  }

  lemma TrimOfTrimmed(s: string)
    requires Trimmed(s)
    ensures Trim(s) == s
  {
  }

  lemma UpperKeepsSpace(c: char)
    ensures IsSpace(UpperChar(c)) == IsSpace(c)
    ensures UpperChar(UpperChar(c)) == UpperChar(c)
  {
  }

  /** Upper-casing a trimmed string is the normal form: doing it again changes
      nothing. */
  lemma NormalFormIsStable(s: string)
    ensures Upper(Trim(Upper(Trim(s)))) == Upper(Trim(s))
  {
    var t := Trim(s);
    TrimIsTrimmed(s);
    if t != [] {
      UpperKeepsSpace(t[0]);
      UpperKeepsSpace(t[|t| - 1]);
    }
    TrimOfTrimmed(Upper(t));
    forall i | 0 <= i < |t| ensures Upper(Upper(t))[i] == Upper(t)[i] {
      UpperKeepsSpace(t[i]);
    }
  }

  // ------------------------------------------------- removing separators

  lemma {:induction false} RemoveConcat(a: string, b: string, c: char)
    ensures Remove(a + b, c) == Remove(a, c) + Remove(b, c)
  {
    if a == [] {
      assert a + b == b;
    } else {
      assert (a + b)[1..] == a[1..] + b;
      RemoveConcat(a[1..], b, c);
    }
  }

  /** Removing leaves none behind. */
  lemma {:induction false} RemoveRemoves(s: string, c: char)
    ensures c !in Remove(s, c)
    ensures Remove([c], c) == []
  {
    if s != [] { RemoveRemoves(s[1..], c); }
  }

  lemma {:induction false} RemoveAbsent(s: string, c: char)
    requires c !in s
    ensures Remove(s, c) == s
  {
    if s != [] {
      assert s[0] in s;
      assert forall x :: x in s[1..] ==> x in s;
      RemoveAbsent(s[1..], c);
    }
  }

  lemma {:induction false} TrimLeftPast(lead: string, s: string)
    requires AllSpace(lead)
    ensures TrimLeft(lead + s) == TrimLeft(s)
  {
    if lead == [] {
      assert lead + s == s;
    } else {
      assert (lead + s)[1..] == lead[1..] + s;
      TrimLeftPast(lead[1..], s);
    }
  }

  lemma {:induction false} TrimRightPast(s: string, trail: string)
    requires AllSpace(trail)
    ensures TrimRight(s + trail) == TrimRight(s)
  {
    if trail == [] {
      assert s + trail == s;
    } else {
      assert (s + trail)[..|s + trail| - 1] == s + trail[..|trail| - 1];
      TrimRightPast(s, trail[..|trail| - 1]);
    }
  }

  lemma {:induction false} TrimLeftInside(s: string, trail: string)
    requires !AllSpace(s)
    ensures TrimLeft(s + trail) == TrimLeft(s) + trail
  {
    if IsSpace(s[0]) {
      assert (s + trail)[1..] == s[1..] + trail;
      TrimLeftInside(s[1..], trail);
    }
  }

  /** Trimming takes the blanks off both ends and nothing else. */
  lemma TrimStripsBlanks(lead: string, mid: string, trail: string)
    requires AllSpace(lead) && AllSpace(trail) && Trimmed(mid)
    ensures Trim(lead + mid + trail) == mid
  {
    assert lead + mid + trail == lead + (mid + trail);
    TrimLeftPast(lead, mid + trail);
    if mid == "" {
      assert mid + trail == trail && trail == trail + "";
      TrimLeftPast(trail, "");
    } else {
      TrimRightPast(mid, trail);
    }
  }

  /** The blanks TrimSpace takes off are blanks the clean-up removes anyway. */
  lemma {:induction false} RemoveAfterTrimLeft(s: string)
    requires forall i :: 0 <= i < |s| && IsSpace(s[i]) ==> s[i] == ' '
    ensures Remove(TrimLeft(s), ' ') == Remove(s, ' ')
    ensures forall i :: 0 <= i < |TrimLeft(s)| && IsSpace(TrimLeft(s)[i]) ==> TrimLeft(s)[i] == ' '
  {
    if s != [] && IsSpace(s[0]) { RemoveAfterTrimLeft(s[1..]); }
  }

  lemma {:induction false} RemoveAfterTrimRight(s: string)
    requires forall i :: 0 <= i < |s| && IsSpace(s[i]) ==> s[i] == ' '
    ensures Remove(TrimRight(s), ' ') == Remove(s, ' ')
  {
    if s != [] && IsSpace(s[|s| - 1]) {
      var init := s[..|s| - 1];
      RemoveAfterTrimRight(init);
      assert s == init + [' '];
      RemoveConcat(init, [' '], ' ');
    }
  }

  lemma {:induction false} RemoveCommutes(s: string, a: char, b: char)
    ensures Remove(Remove(s, a), b) == Remove(Remove(s, b), a)
  {
    if s != [] {
      RemoveCommutes(s[1..], a, b);
      if s[0] != a { assert ([s[0]] + Remove(s[1..], a))[1..] == Remove(s[1..], a); }
      if s[0] != b { assert ([s[0]] + Remove(s[1..], b))[1..] == Remove(s[1..], b); }
    }
  }
}
