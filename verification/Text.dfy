/** The string operations the queries are built from: trimming, case folding,
    substring search, LIKE patterns and their escaping. */
module Text {

  // ---------------------------------------------------------------- trimming

  /** Go's unicode.IsSpace. */
  predicate IsSpace(c: char) {
    c in {' ', '\t', '\n', '\r', '\U{000B}', '\U{000C}', '\U{0085}', '\U{00A0}', '\U{1680}',
          '\U{2028}', '\U{2029}', '\U{202F}', '\U{205F}', '\U{3000}'}
    || '\U{2000}' <= c <= '\U{200A}'
  }

  function TrimLeft(s: string, drop: char -> bool): string {
    if s != "" && drop(s[0]) then TrimLeft(s[1..], drop) else s
  }

  function TrimRight(s: string, drop: char -> bool): string {
    if s != "" && drop(s[|s| - 1]) then TrimRight(s[..|s| - 1], drop) else s
  }

  /** strings.TrimSpace */
  function TrimSpace(s: string): string {
    TrimRight(TrimLeft(s, IsSpace), IsSpace)
  }

  /** PostgreSQL BTRIM with its default argument: plain spaces only. */
  function BTrim(s: string): string {
    TrimRight(TrimLeft(s, c => c == ' '), c => c == ' ')
  }

  predicate Tight(s: string, drop: char -> bool) {
    s != "" ==> !drop(s[0]) && !drop(s[|s| - 1])
  }

  lemma {:induction false} TrimLeftStops(s: string, drop: char -> bool)
    ensures var r := TrimLeft(s, drop);
            |r| <= |s| && r == s[|s| - |r|..] && (r != "" ==> !drop(r[0]))
  {
    if s != "" && drop(s[0]) {
      TrimLeftStops(s[1..], drop);
    }
  }

  lemma {:induction false} TrimRightStops(s: string, drop: char -> bool)
    ensures var r := TrimRight(s, drop);
            r <= s && (r != "" ==> !drop(r[|r| - 1]))
  {
    if s != "" && drop(s[|s| - 1]) {
      TrimRightStops(s[..|s| - 1], drop);
    }
  }

  /** A trimmed string has no space at either end. */
  lemma TrimIsTight(s: string, drop: char -> bool)
    ensures Tight(TrimRight(TrimLeft(s, drop), drop), drop)
  {
    TrimLeftStops(s, drop);
    TrimRightStops(TrimLeft(s, drop), drop);
  }

  lemma TightIsTrimmed(s: string, drop: char -> bool)
    requires Tight(s, drop)
    ensures TrimRight(TrimLeft(s, drop), drop) == s
  {
  }

  lemma BlankTrims()
    ensures TrimSpace("") == ""
  {
  }

  /** Trimming twice is trimming once, and BTRIM adds nothing to TrimSpace. */
  lemma TrimSpaceStable(s: string)
    ensures TrimSpace(TrimSpace(s)) == TrimSpace(s)
    ensures BTrim(TrimSpace(s)) == TrimSpace(s)
  {
    TrimIsTight(s, IsSpace);
    TightIsTrimmed(TrimSpace(s), IsSpace);
    TightIsTrimmed(TrimSpace(s), c => c == ' ');
  }

  lemma {:induction false} TrimLeftDrops(s: string, drop: char -> bool)
    ensures var cut := |s| - |TrimLeft(s, drop)|;
      0 <= cut <= |s| && TrimLeft(s, drop) == s[cut..] && forall i :: 0 <= i < cut ==> drop(s[i])
  {
    if s != "" && drop(s[0]) {
      TrimLeftDrops(s[1..], drop);
      var cut := |s[1..]| - |TrimLeft(s[1..], drop)|;
      forall i | 0 <= i < cut + 1 ensures drop(s[i]) {
        if i > 0 { assert s[1..][i - 1] == s[i]; }
      }
    }
  }

  lemma {:induction false} TrimRightDrops(s: string, drop: char -> bool)
    ensures var r := TrimRight(s, drop);
      r <= s && forall i :: |r| <= i < |s| ==> drop(s[i])
  {
    if s != "" && drop(s[|s| - 1]) {
      TrimRightDrops(s[..|s| - 1], drop);
    }
  }

  /** Trimming cuts white space off both ends and nothing else, as far as it goes. */
  lemma TrimSpaceCuts(s: string) returns (left: string, right: string)
    ensures s == left + TrimSpace(s) + right
    ensures forall c :: c in left || c in right ==> IsSpace(c)
    ensures TrimSpace(s) != "" ==> !IsSpace(TrimSpace(s)[0]) && !IsSpace(TrimSpace(s)[|TrimSpace(s)| - 1])
    ensures forall c :: c in " \t\n\r" ==> IsSpace(c)
    ensures forall c :: '!' <= c <= '~' ==> !IsSpace(c)
  {
    TrimIsTight(s, IsSpace);
    TrimLeftDrops(s, IsSpace);
    var mid := TrimLeft(s, IsSpace);
    TrimRightDrops(mid, IsSpace);
    left, right := s[..|s| - |mid|], mid[|TrimSpace(s)|..];
  }

  // ---------------------------------------------------------------- mapping characters

  function Map(f: char -> char, s: string): (r: string)
    ensures |r| == |s| && forall i :: 0 <= i < |s| ==> r[i] == f(s[i])
  {
    seq(|s|, i requires 0 <= i < |s| => f(s[i]))
  }

  function Keep(p: char -> bool, s: string): string {
    if s == "" then "" else (if p(s[0]) then [s[0]] else "") + Keep(p, s[1..])
  }

  predicate IsDigit(c: char) { '0' <= c <= '9' }

  /** digitsOnly */
  function DigitsOnly(s: string): string { Keep(IsDigit, s) }

  predicate IsNoSeparator(c: char) { c !in {' ', '(', ')', '-', '+', '.'} }

  /** translate(phone, ' ()-+.', '') */
  function StripSeparators(s: string): string { Keep(IsNoSeparator, s) }

  lemma {:induction false} KeepOnly(p: char -> bool, s: string)
    ensures forall c :: c in Keep(p, s) <==> c in s && p(c)
  {
    if s != "" {
      KeepOnly(p, s[1..]);
    }
  }

  /** Only digits are left, and only separators are dropped. */
  lemma PhoneDigits(s: string, c: char)
    ensures c in DigitsOnly(s) <==> c in s && '0' <= c <= '9'
    ensures c in StripSeparators(s) <==> c in s && c !in " ()-+."
  {
    KeepOnly(IsDigit, s);
    KeepOnly(IsNoSeparator, s);
  }

  /** strings.ReplaceAll of one character. */
  function ReplaceChar(s: string, c: char, with: string): string {
    if s == "" then "" else (if s[0] == c then with else [s[0]]) + ReplaceChar(s[1..], c, with)
  }

  // ---------------------------------------------------------------- substrings

  predicate Contains(s: string, q: string) {
    q <= s || (s != "" && Contains(s[1..], q))
  }

  /** q occurs in s at some offset. */
  lemma {:induction false} ContainsAt(s: string, q: string)
    ensures Contains(s, q) <==> exists i :: 0 <= i <= |s| && q <= s[i..]
  {
    if q <= s {
      assert q <= s[0..];
    } else if s != "" {
      ContainsAt(s[1..], q);
      if Contains(s[1..], q) {
        var i :| 0 <= i <= |s[1..]| && q <= s[1..][i..];
        assert s[1..][i..] == s[i + 1..];
      }
      assert s[0..] == s;
      forall i | 0 < i <= |s| && q <= s[i..] ensures q <= s[1..][i - 1..] {
        assert s[i..] == s[1..][i - 1..];
      }
    }
  }

  lemma {:induction false} ContainedIsShorter(s: string, q: string)
    requires Contains(s, q)
    ensures |q| <= |s|
    ensures |q| == |s| ==> q == s
  {
    if !(q <= s) {
      ContainedIsShorter(s[1..], q);
    }
  }

  lemma {:induction false} ContainsInside(left: string, mid: string, right: string, q: string)
    requires Contains(mid, q)
    ensures Contains(left + mid + right, q)
  {
    if left == "" {
      assert left + mid + right == mid + right;
      if q <= mid {
        assert q <= mid + right;
      } else {
        ContainsInside("", mid[1..], right, q);
        assert (mid + right)[1..] == "" + mid[1..] + right;
      }
    } else {
      ContainsInside(left[1..], mid, right, q);
      assert (left + mid + right)[1..] == left[1..] + mid + right;
    }
  }

  // ---------------------------------------------------------------- LIKE

  predicate IsMeta(c: char) { c == '\\' || c == '%' || c == '_' }

  /** s LIKE p ESCAPE '\'.  A pattern that ends in a lone escape matches nothing;
      PostgreSQL raises an error there, and no pattern built here ends so. */
  predicate Like(s: string, p: string)
    decreases |s| + |p|
  {
    if p == "" then s == ""
    else if p[0] == '%' then Like(s, p[1..]) || (s != "" && Like(s[1..], p))
    else if p[0] == '_' then s != "" && Like(s[1..], p[1..])
    else if p[0] == '\\' then |p| >= 2 && s != "" && s[0] == p[1] && Like(s[1..], p[2..])
    else s != "" && s[0] == p[0] && Like(s[1..], p[1..])
  }

  /** escapeILIKE: three replacements, one after the other. */
  function EscapeLike(s: string): string {
    ReplaceChar(ReplaceChar(ReplaceChar(s, '\\', "\\\\"), '%', "\\%"), '_', "\\_")
  }

  /** One character escaped in one step. */
  function EscapeChar(c: char): string { if IsMeta(c) then ['\\', c] else [c] }

  function EscapeEach(s: string): string {
    if s == "" then "" else EscapeChar(s[0]) + EscapeEach(s[1..])
  }

  lemma {:induction false} ReplaceConcat(a: string, b: string, c: char, with: string)
    ensures ReplaceChar(a + b, c, with) == ReplaceChar(a, c, with) + ReplaceChar(b, c, with)
  {
    if a == "" {
      assert a + b == b;
    } else {
      ReplaceConcat(a[1..], b, c, with);
      assert (a + b)[0] == a[0] && (a + b)[1..] == a[1..] + b;
      var head, left, right := if a[0] == c then with else [a[0]], ReplaceChar(a[1..], c, with), ReplaceChar(b, c, with);
      assert head + (left + right) == (head + left) + right;
    }
  }

  lemma EscapeOne(c: char)
    ensures EscapeLike([c]) == EscapeChar(c)
  {
    assert ReplaceChar([c], '\\', "\\\\") == (if c == '\\' then "\\\\" else [c]) + ReplaceChar("", '\\', "\\\\");
    if IsMeta(c) {
      assert ['\\', c] == ['\\'] + [c];
      ReplaceConcat(['\\'], [c], '%', "\\%");
      ReplaceConcat(['\\'], [c], '_', "\\_");
      ReplaceConcat(['\\'], ['\\'], '_', "\\_");
    }
  }

  /** The three sequential replacements equal one character-wise escape: no pass
      rewrites what an earlier pass produced, because the backslash goes first. */
  lemma {:induction false} EscapeIsCharacterwise(s: string)
    ensures EscapeLike(s) == EscapeEach(s)
  {
    if s != "" {
      EscapeIsCharacterwise(s[1..]);
      assert s == [s[0]] + s[1..];
      var b := ReplaceChar(s[1..], '\\', "\\\\");
      var b0 := ReplaceChar([s[0]], '\\', "\\\\");
      ReplaceConcat([s[0]], s[1..], '\\', "\\\\");
      ReplaceConcat(b0, b, '%', "\\%");
      ReplaceConcat(ReplaceChar(b0, '%', "\\%"), ReplaceChar(b, '%', "\\%"), '_', "\\_");
      EscapeOne(s[0]);
    }
  }

  lemma LikeEscapedChar(s: string, c: char, rest: string)
    ensures Like(s, EscapeChar(c) + rest) <==> s != "" && s[0] == c && Like(s[1..], rest)
  {
    assert (EscapeChar(c) + rest)[|EscapeChar(c)|..] == rest;
  }

  /** An escaped string in front of a pattern matches exactly itself. */
  lemma {:induction false} LikeLiteral(s: string, q: string, rest: string)
    ensures Like(s, EscapeEach(q) + rest) <==> q <= s && Like(s[|q|..], rest)
  {
    if q == "" {
      assert EscapeEach(q) + rest == rest && s[0..] == s;
    } else {
      assert EscapeEach(q) + rest == EscapeChar(q[0]) + (EscapeEach(q[1..]) + rest);
      LikeEscapedChar(s, q[0], EscapeEach(q[1..]) + rest);
      if s != "" {
        LikeLiteral(s[1..], q[1..], rest);
        assert q == [q[0]] + q[1..] && s == [s[0]] + s[1..];
        if q <= s {
          assert s[1..][|q| - 1..] == s[|q|..];
        }
      }
    }
  }

  lemma {:induction false} PercentMatchesAll(s: string)
    ensures Like(s, "%")
  {
    if s != "" {
      PercentMatchesAll(s[1..]);
    }
  }

  /** Main result: '%' + escapeILIKE(q) + '%' is a substring test, for every q and s. */
  lemma {:induction false} EscapedLikeIsContains(s: string, q: string)
    ensures Like(s, "%" + EscapeLike(q) + "%") <==> Contains(s, q)
  {
    EscapeIsCharacterwise(q);
    var p := "%" + EscapeLike(q) + "%";
    assert p[1..] == EscapeEach(q) + "%";
    LikeLiteral(s, q, "%");
    if q <= s {
      PercentMatchesAll(s[|q|..]);
    }
    if s != "" {
      EscapedLikeIsContains(s[1..], q);
    }
  }

  /** Text without metacharacters is its own escape. */
  lemma {:induction false} NothingToEscape(q: string)
    requires forall c :: c in q ==> !IsMeta(c)
    ensures EscapeLike(q) == q
  {
    EscapeIsCharacterwise(q);
    if q != "" {
      NothingToEscape(q[1..]);
      EscapeIsCharacterwise(q[1..]);
    }
  }

  /** The digit patterns are not escaped and need not be. */
  lemma DigitLikeIsContains(s: string, q: string)
    ensures Like(s, "%" + DigitsOnly(q) + "%") <==> Contains(s, DigitsOnly(q))
  {
    KeepOnly(IsDigit, q);
    NothingToEscape(DigitsOnly(q));
    EscapedLikeIsContains(s, DigitsOnly(q));
  }

  /** A string the raw pattern q + '%' matches although it is not q; `any` stands where the
      pattern takes any character. */
  function RawWitness(q: string, any: char): string {
    if q == "" then ""
    else if q[0] == '%' then RawWitness(q[1..], any)
    else if q[0] == '_' then [any] + RawWitness(q[1..], any)
    else if q[0] == '\\' then if |q| >= 2 then [q[1]] + RawWitness(q[2..], any) else "%"
    else [q[0]] + RawWitness(q[1..], any)
  }

  lemma {:induction false} RawWitnessMatches(q: string, any: char)
    requires !IsMeta(any)
    ensures Like(RawWitness(q, any), q + "%")
    ensures |RawWitness(q, any)| <= |q|
    ensures (exists c :: c in q && IsMeta(c)) ==> RawWitness(q, any) != q
    decreases |q|
  {
    var w := RawWitness(q, any);
    if q == "" {
      assert q + "%" == "%";
      PercentMatchesAll("");
    } else if q[0] == '\\' && |q| >= 2 {
      RawWitnessMatches(q[2..], any);
      assert (q + "%")[2..] == q[2..] + "%";
      assert w[1..] == RawWitness(q[2..], any);
      assert |w| < |q|;
    } else if q[0] == '\\' {
      assert q + "%" == "\\%";
      assert Like("%"[1..], "\\%"[2..]);
    } else {
      RawWitnessMatches(q[1..], any);
      assert (q + "%")[1..] == q[1..] + "%";
      if q[0] != '%' {
        assert w[1..] == RawWitness(q[1..], any);
        assert q == [q[0]] + q[1..];
      }
    }
  }

  /** Its characters come from the query, but for the stand-in and a final '%'. */
  lemma {:induction false} RawWitnessChars(q: string, any: char)
    ensures forall c :: c in RawWitness(q, any) ==> c in q || c == any || c == '%'
    decreases |q|
  {
    if q != "" {
      RawWitnessChars(q[1..], any);
      if |q| >= 2 {
        RawWitnessChars(q[2..], any);
      }
    }
  }

  /** Searching with '%' + q + '%' is a substring search on this text. */
  predicate SearchesPlainly(s: string, q: string) {
    Like(s, "%" + q + "%") <==> Contains(s, q)
  }

  /** The transfer logs search with '%' + q + '%' and do not escape q.  That is a
      substring search on every text exactly when q has no metacharacter. */
  lemma RawLikeIsContainsIff(q: string)
    ensures (forall s :: SearchesPlainly(s, q)) <==> (forall c :: c in q ==> !IsMeta(c))
  {
    if forall c :: c in q ==> !IsMeta(c) {
      NothingToEscape(q);
      forall s ensures SearchesPlainly(s, q) {
        EscapedLikeIsContains(s, q);
      }
    } else {
      var c :| c in q && IsMeta(c);
      var w := RawWitness(q, 'a');
      RawWitnessMatches(q, 'a');
      assert w != q;
      assert ("%" + q + "%")[1..] == q + "%";
      assert Like(w, "%" + q + "%");
      assert !Contains(w, q) by {
        if Contains(w, q) {
          ContainedIsShorter(w, q);
        }
      }
      assert !SearchesPlainly(w, q);
    }
  }

  // ---------------------------------------------------------------- ILIKE

  /** A case folding works character by character and keeps the pattern characters apart. */
  ghost predicate FoldOk(fold: char -> char) {
    forall c :: (IsMeta(c) ==> fold(c) == c) && (IsMeta(fold(c)) ==> IsMeta(c))
  }

  predicate ILike(fold: char -> char, s: string, p: string) {
    Like(Map(fold, s), Map(fold, p))
  }

  lemma {:induction false} FoldEscape(fold: char -> char, q: string)
    requires FoldOk(fold)
    ensures Map(fold, EscapeEach(q)) == EscapeEach(Map(fold, q))
  {
    if q != "" {
      FoldEscape(fold, q[1..]);
      assert Map(fold, q)[1..] == Map(fold, q[1..]);
      assert Map(fold, EscapeChar(q[0])) == EscapeChar(fold(q[0]));
      assert Map(fold, EscapeChar(q[0]) + EscapeEach(q[1..]))
          == Map(fold, EscapeChar(q[0])) + Map(fold, EscapeEach(q[1..]));
    }
  }

  /** Main result for ILIKE: an escaped query is a substring test modulo case. */
  lemma EscapedILikeIsContains(fold: char -> char, s: string, q: string)
    requires FoldOk(fold)
    ensures ILike(fold, s, "%" + EscapeLike(q) + "%") <==> Contains(Map(fold, s), Map(fold, q))
  {
    EscapeIsCharacterwise(q);
    EscapeIsCharacterwise(Map(fold, q));
    FoldEscape(fold, q);
    assert Map(fold, "%" + EscapeLike(q) + "%") == "%" + EscapeLike(Map(fold, q)) + "%";
    EscapedLikeIsContains(Map(fold, s), Map(fold, q));
  }
}
