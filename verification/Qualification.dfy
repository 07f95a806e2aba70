/** Qualification codes and the normalisation of what clients and old rows write. */
module Qualification {
  import opened Wrappers
  import opened Model
  import opened Text
  import opened LeadQuery

  const ALLOWED := ASSIGNABLE + ["NOT_QUALIFIED", "IRRELEVANT"]

  datatype Labelled = Labelled(code: string, text: string)

  const LABELS := [
    Labelled("QUALIFIED", "Qualified"), Labelled("QUALIFIED_CHAT", "Qualified - Chat"),
    Labelled("QUALIFIED_CALL", "Qualified - Call"), Labelled("PAID", "Paid"), Labelled("ORGANIC", "Organic"),
    Labelled("NOT_QUALIFIED", "Not Qualified"), Labelled("IRRELEVANT", "Irrelevant")]

  // ---------------------------------------------------------------- collapsing underscores

  predicate HasDouble(s: string) { exists i :: 0 <= i < |s| - 1 && s[i] == '_' && s[i + 1] == '_' }

  /** strings.ReplaceAll(s, "__", "_"): left to right, without overlap. */
  function HalveDoubles(s: string): string {
    if |s| < 2 then s
    else if s[0] == '_' && s[1] == '_' then "_" + HalveDoubles(s[2..])
    else [s[0]] + HalveDoubles(s[1..])
  }

  /** Every run of underscores becomes one. */
  function Squeeze(s: string): string {
    if |s| < 2 then s
    else if s[0] == '_' && s[1] == '_' then Squeeze(s[1..])
    else [s[0]] + Squeeze(s[1..])
  }

  lemma {:induction false} SqueezeHasNoDouble(s: string)
    ensures !HasDouble(Squeeze(s))
    ensures s != "" ==> Squeeze(s) != "" && Squeeze(s)[0] == s[0]
  {
    if |s| >= 2 {
      SqueezeHasNoDouble(s[1..]);
    }
  }

  lemma {:induction false} SingleIsSqueezed(s: string)
    requires !HasDouble(s)
    ensures Squeeze(s) == s
  {
    if |s| >= 2 {
      assert !(s[0] == '_' && s[0 + 1] == '_');
      forall i | 0 <= i < |s[1..]| - 1 ensures !(s[1..][i] == '_' && s[1..][i + 1] == '_') {
        assert s[1..][i] == s[i + 1] && s[1..][i + 1] == s[(i + 1) + 1];
      }
      SingleIsSqueezed(s[1..]);
    }
  }

  /** One round of the replacement: shorter when it does anything, and squeezing still
      gives the same. */
  lemma {:induction false} HalvingKeepsSqueeze(s: string)
    ensures Squeeze(HalveDoubles(s)) == Squeeze(s)
    ensures |HalveDoubles(s)| <= |s| && (HasDouble(s) ==> |HalveDoubles(s)| < |s|)
    ensures s != "" ==> HalveDoubles(s) != "" && HalveDoubles(s)[0] == s[0]
  {
    if |s| < 2 {
    } else if s[0] == '_' && s[1] == '_' {
      HalvingKeepsSqueeze(s[2..]);
      var rest := HalveDoubles(s[2..]);
      assert ("_" + rest)[1..] == rest;
      assert s[1..][1..] == s[2..];
      if s[2..] != "" {
        assert rest[0] == s[2] && s[1..][1] == s[2];
      }
    } else {
      HalvingKeepsSqueeze(s[1..]);
      var rest := HalveDoubles(s[1..]);
      assert ([s[0]] + rest)[1..] == rest;
      if HasDouble(s) {
        var i :| 0 <= i < |s| - 1 && s[i] == '_' && s[i + 1] == '_';
        assert s[1..][i - 1] == '_' && s[1..][i - 1 + 1] == '_';
      }
    }
  }

  /** The collapse loop terminates and computes the squeezed key. */
  method Collapse(start: string) returns (key: string)
    ensures key == Squeeze(start) && !HasDouble(key)
  {
    key := start;
    while HasDouble(key)
      invariant Squeeze(key) == Squeeze(start)
      decreases |key|
    {
      HalvingKeepsSqueeze(key);
      key := HalveDoubles(key);
    }
    SingleIsSqueezed(key);
  }

  // ---------------------------------------------------------------- normalising

  function Separators(s: string): string { Map(c => if c == '-' || c == ' ' then '_' else c, s) }

  predicate IsUnderscore(c: char) { c == '_' }

  function TrimUnderscores(s: string): string { TrimRight(TrimLeft(s, IsUnderscore), IsUnderscore) }

  function KeyOf(loc: Locale, s: string): string { TrimUnderscores(Squeeze(Separators(Map(loc.upper, s)))) }

  lemma {:induction false} SqueezeKeeps(s: string, c: char)
    requires c !in s
    ensures c !in Squeeze(s)
  {
    if |s| >= 2 {
      SqueezeKeeps(s[1..], c);
    }
  }

  lemma {:induction false} TrimLeftPart(s: string, drop: char -> bool)
    ensures exists k :: 0 <= k <= |s| && TrimLeft(s, drop) == s[k..]
  {
    if s != "" && drop(s[0]) {
      TrimLeftPart(s[1..], drop);
      var k :| 0 <= k <= |s[1..]| && TrimLeft(s[1..], drop) == s[1..][k..];
      assert s[1..][k..] == s[k + 1..];
    } else {
      assert s == s[0..];
    }
  }

  lemma {:induction false} TrimRightPart(s: string, drop: char -> bool)
    ensures TrimRight(s, drop) <= s
  {
    if s != "" && drop(s[|s| - 1]) {
      TrimRightPart(s[..|s| - 1], drop);
    }
  }

  lemma PartHasNoDouble(s: string, from: nat, to: nat)
    requires from <= to <= |s| && !HasDouble(s)
    ensures !HasDouble(s[from..to])
  {
    forall i | 0 <= i < |s[from..to]| - 1 ensures !(s[from..to][i] == '_' && s[from..to][i + 1] == '_') {
      assert !(s[from + i] == '_' && s[from + i + 1] == '_');
    }
  }

  /** Trimming cuts a part out of the text, without underscores at its ends. */
  lemma TrimmedPart(s: string)
    ensures var key := TrimUnderscores(s);
      && (exists k: nat, m: nat :: k <= m <= |s| && key == s[k..m])
      && (key != "" ==> key[0] != '_' && key[|key| - 1] != '_')
  {
    TrimLeftPart(s, IsUnderscore);
    var k :| 0 <= k <= |s| && TrimLeft(s, IsUnderscore) == s[k..];
    TrimRightPart(s[k..], IsUnderscore);
    var key := TrimRight(s[k..], IsUnderscore);
    assert key == s[k..k + |key|];
    TrimIsTight(s, IsUnderscore);
    hide TrimLeft, TrimRight;
  }

  /** A key has no dash, no space, no two underscores in a row and none at its ends, and it is
      the same for texts that differ in case only. */
  lemma KeyIsClean(loc: Locale, s: string, t: string)
    ensures var key := KeyOf(loc, s);
      && '-' !in key && ' ' !in key && !HasDouble(key) && (key != "" ==> key[0] != '_' && key[|key| - 1] != '_')
    ensures Map(loc.upper, s) == Map(loc.upper, t) ==> KeyOf(loc, t) == KeyOf(loc, s)
  {
    hide Squeeze, HasDouble, TrimUnderscores;
    var plain := Separators(Map(loc.upper, s));
    var base := Squeeze(plain);
    SqueezeHasNoDouble(plain);
    SqueezeKeeps(plain, '-');
    SqueezeKeeps(plain, ' ');
    TrimmedPart(base);
    var k: nat, m: nat :| k <= m <= |base| && TrimUnderscores(base) == base[k..m];
    PartHasNoDouble(base, k, m);
  }

  function FindLabel(loc: Locale, s: string, i: nat): Option<string>
    requires i <= |LABELS|
    decreases |LABELS| - i
  {
    if i == |LABELS| then None
    else if EqualFold(loc, TrimSpace(LABELS[i].text), s) then Some(LABELS[i].code)
    else FindLabel(loc, s, i + 1)
  }

  function Normalize(loc: Locale, status: string): string {
    var s := TrimSpace(status);
    if s == "" || s in ALLOWED then s
    else if KeyOf(loc, s) in ALLOWED then KeyOf(loc, s)
    else if FindLabel(loc, s, 0).Some? then FindLabel(loc, s, 0).value
    else s
  }

  method NormalizeQualification(loc: Locale, status: string) returns (code: string)
    ensures code == Normalize(loc, status)
  {
    var s := TrimSpace(status);
    if s == "" {
      return "";
    }
    if s in ALLOWED {
      return s;
    }
    var key := Map(loc.upper, s);
    key := Map(c => if c == '-' then '_' else c, key);
    key := Map(c => if c == ' ' then '_' else c, key);
    assert key == Separators(Map(loc.upper, s));
    key := Collapse(key);
    key := TrimUnderscores(key);
    if key in ALLOWED {
      return key;
    }
    for i := 0 to |LABELS|
      invariant FindLabel(loc, s, 0) == FindLabel(loc, s, i)
    {
      if EqualFold(loc, TrimSpace(LABELS[i].text), s) {
        return LABELS[i].code;
      }
    }
    code := s;
  }

  lemma {:induction false} LabelsAreAllowed(loc: Locale, s: string, i: nat)
    requires i <= |LABELS|
    ensures FindLabel(loc, s, i).Some? ==> FindLabel(loc, s, i).value in ALLOWED
    decreases |LABELS| - i
  {
    if i < |LABELS| {
      LabelsAreAllowed(loc, s, i + 1);
    }
  }

  lemma AllowedIsTrimmed(s: string)
    requires s in ALLOWED
    ensures s != "" && TrimSpace(s) == s
  {
    TightIsTrimmed(s, IsSpace);
  }

  /** A text is taken as a code when it is one, else by its key, else by a label of the same
      text without case, and stays trimmed when it is none of them. */
  lemma NormalizeByParts(loc: Locale, status: string)
    ensures var s, code := TrimSpace(status), Normalize(loc, status);
      && (s in ["QUALIFIED", "QUALIFIED_CHAT", "QUALIFIED_CALL", "PAID", "ORGANIC", "NOT_QUALIFIED", "IRRELEVANT"] ==> code == s)
      && (s == "" ==> code == "")
      && (s != "" && s !in ALLOWED && KeyOf(loc, s) in ALLOWED ==> code == KeyOf(loc, s))
      && (s != "" && s !in ALLOWED && KeyOf(loc, s) !in ALLOWED && code != s ==>
            exists i :: 0 <= i < |LABELS| && EqualFold(loc, TrimSpace(LABELS[i].text), s) && code == LABELS[i].code)
      && (s != "" && s !in ALLOWED && KeyOf(loc, s) !in ALLOWED && code == s ==>
            forall i :: 0 <= i < |LABELS| ==> !EqualFold(loc, TrimSpace(LABELS[i].text), s))
  {
    hide TrimSpace, KeyOf, EqualFold;
    LabelFound(loc, TrimSpace(status), 0);
    LabelsAreAllowed(loc, TrimSpace(status), 0);
  }

  lemma {:induction false} LabelFound(loc: Locale, s: string, i: nat)
    requires i <= |LABELS|
    ensures match FindLabel(loc, s, i)
      case Some(code) => exists j :: i <= j < |LABELS| && EqualFold(loc, TrimSpace(LABELS[j].text), s) && code == LABELS[j].code
      case None => forall j :: i <= j < |LABELS| ==> !EqualFold(loc, TrimSpace(LABELS[j].text), s)
    decreases |LABELS| - i
  {
    hide TrimSpace, EqualFold;
    if i < |LABELS| {
      LabelFound(loc, s, i + 1);
    }
  }

  /** Normalising yields a canonical code or the trimmed text, so it is idempotent. */
  lemma NormalizeIsStable(loc: Locale, status: string)
    ensures var code := Normalize(loc, status);
            (code in ALLOWED || code == TrimSpace(status)) && TrimSpace(code) == code && Normalize(loc, code) == code
  {
    LabelsAreAllowed(loc, TrimSpace(status), 0);
    var code := Normalize(loc, status);
    if code in ALLOWED {
      AllowedIsTrimmed(code);
    } else {
      TrimSpaceStable(status);
    }
  }
}
