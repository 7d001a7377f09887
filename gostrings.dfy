/** The few functions of Go's `strings`, `path/filepath` and string-to-bytes conversion that the
    core relies on. Case mapping is ASCII only (Go's maps every Unicode letter). */
module GoStrings {
  import opened Wrappers

  function LowerChar(c: char): char {
    if 'A' <= c <= 'Z' then (c as int + 32) as char else c
  }

  function UpperChar(c: char): char {
    if 'a' <= c <= 'z' then (c as int - 32) as char else c
  }

  /** strings.ToLower */
  function ToLower(s: string): (r: string)
    ensures |r| == |s|
    ensures forall i :: 0 <= i < |s| ==> r[i] == LowerChar(s[i])
  {
    seq(|s|, i requires 0 <= i < |s| => LowerChar(s[i]))
  }

  /** strings.ToUpper */
  function ToUpper(s: string): (r: string)
    ensures |r| == |s|
    ensures forall i :: 0 <= i < |s| ==> r[i] == UpperChar(s[i])
  {
    seq(|s|, i requires 0 <= i < |s| => UpperChar(s[i]))
  }

  predicate IsLower(s: string) {
    ToLower(s) == s
  }

  lemma LowerIdempotent(s: string)
    ensures ToLower(ToLower(s)) == ToLower(s)
    ensures IsLower(ToLower(s))
  {
    assert forall i :: 0 <= i < |s| ==> LowerChar(LowerChar(s[i])) == LowerChar(s[i]);
  }

  predicate IsUpper(s: string) {
    ToUpper(s) == s
  }

  lemma UpperIdempotent(s: string)
    ensures IsUpper(ToUpper(s))
  {
    assert forall i :: 0 <= i < |s| ==> UpperChar(UpperChar(s[i])) == UpperChar(s[i]);
  }

  lemma LowerEmpty(s: string)
    ensures ToLower(s) == "" <==> s == ""
  {
    assert |ToLower(s)| == |s|;
  }

  lemma LowerAppend(a: string, b: string)
    ensures ToLower(a + b) == ToLower(a) + ToLower(b)
  {
    var l, r := ToLower(a + b), ToLower(a) + ToLower(b);
    assert |l| == |r|;
    forall i | 0 <= i < |l| ensures l[i] == r[i] {
      if i < |a| { assert (a + b)[i] == a[i]; } else { assert (a + b)[i] == b[i - |a|]; }
    }
  }

  /** A character that case mapping leaves alone belongs to a string exactly when it belongs
      to its lower-cased form. */
  lemma LowerKeepsSeparator(s: string, c: char)
    requires !('a' <= c <= 'z') && !('A' <= c <= 'Z')
    ensures c in ToLower(s) <==> c in s
  {
    if c in s {
      var i :| 0 <= i < |s| && s[i] == c;
      assert ToLower(s)[i] == c;
    }
    if c in ToLower(s) {
      var i :| 0 <= i < |s| && ToLower(s)[i] == c;
      assert s[i] == c;
    }
  }

  /** strings.Split(s, string(sep)) for a one-character separator: the pieces between
      separators, always at least one. */
  function Split(s: string, sep: char): (r: seq<string>)
    ensures |r| >= 1
    decreases |s|
  {
    if |s| == 0 then [""]
    else if s[0] == sep then [""] + Split(s[1..], sep)
    else var rest := Split(s[1..], sep); [[s[0]] + rest[0]] + rest[1..]
  }

  lemma {:induction false} SplitNoSeparator(s: string, sep: char)
    requires sep !in s
    ensures Split(s, sep) == [s]
    decreases |s|
  {
    if |s| > 0 {
      assert sep !in s[1..];
      SplitNoSeparator(s[1..], sep);
      assert [s[0]] + s[1..] == s;
    }
  }

  /** Splitting at the first separator: the text before it is the first piece. */
  lemma {:induction false} SplitAtSeparator(a: string, sep: char, b: string)
    requires sep !in a
    ensures Split(a + [sep] + b, sep) == [a] + Split(b, sep)
    decreases |a|
  {
    if |a| == 0 {
      assert a + [sep] + b == [sep] + b;
      assert ([sep] + b)[1..] == b;
    } else {
      var s := a + [sep] + b;
      assert s[0] == a[0] && s[0] != sep;
      assert s[1..] == a[1..] + [sep] + b;
      SplitAtSeparator(a[1..], sep, b);
      assert [a[0]] + a[1..] == a;
    }
  }

  /** strings.HasPrefix */
  predicate HasPrefix(s: string, prefix: string) {
    |prefix| <= |s| && s[..|prefix|] == prefix
  }

  /** strings.HasSuffix */
  predicate HasSuffix(s: string, suffix: string) {
    |suffix| <= |s| && s[|s| - |suffix|..] == suffix
  }

  predicate OccursAt(s: string, pattern: string, j: nat) {
    j + |pattern| <= |s| && s[j..j + |pattern|] == pattern
  }

  lemma OccursShift(s: string, pattern: string, j: nat)
    requires |s| > 0
    ensures OccursAt(s, pattern, j + 1) <==> OccursAt(s[1..], pattern, j)
  {
    if j + 1 + |pattern| <= |s| {
      assert s[j + 1..j + 1 + |pattern|] == s[1..][j..j + |pattern|];
    }
  }

  lemma OccursShiftAll(s: string, pattern: string)
    requires |s| > 0
    ensures forall j: nat :: 1 <= j ==> (OccursAt(s, pattern, j) <==> OccursAt(s[1..], pattern, j - 1))
  {
    forall j: nat | 1 <= j
      ensures OccursAt(s, pattern, j) <==> OccursAt(s[1..], pattern, j - 1)
    {
      OccursShift(s, pattern, j - 1);
    }
  }

  /** The first position at which `pattern` occurs in `s`, if any. */
  function IndexOf(s: string, pattern: string): (r: Option<nat>)
    ensures r.Some? ==> OccursAt(s, pattern, r.value)
    ensures r.Some? ==> forall j: nat :: j < r.value ==> !OccursAt(s, pattern, j)
    ensures r.None? ==> forall j: nat :: !OccursAt(s, pattern, j)
    decreases |s|
  {
    if |pattern| > |s| then None
    else if s[..|pattern|] == pattern then Some(0)
    else
      var r := IndexOf(s[1..], pattern);
      OccursShiftAll(s, pattern);
      match r
      case None => None
      case Some(i) => Some(i + 1)
  }

  /** strings.Replace(s, old, new, 1) for a non-empty `old`: the first occurrence is replaced,
      and the text is returned unchanged when there is none. */
  function ReplaceFirst(s: string, pattern: string, replacement: string): string
    requires pattern != ""
  {
    match IndexOf(s, pattern)
    case None => s
    case Some(i) => s[..i] + replacement + s[i + |pattern|..]
  }

  /** filepath.Base for '/'-separated names: the text after the last '/' once trailing slashes
      are removed; "." for the empty name and "/" for a name of slashes only. */
  function Base(path: string): (r: string)
    ensures r != ""
  {
    var trimmed := TrimTrailingSlashes(path);
    if path == "" then "."
    else if trimmed == "" then "/"
    else AfterLastSlash(trimmed)
  }

  function TrimTrailingSlashes(s: string): (r: string)
    ensures |r| <= |s| && r == s[..|r|]
    ensures r == "" || r[|r| - 1] != '/'
  {
    if s != [] && s[|s| - 1] == '/' then TrimTrailingSlashes(s[..|s| - 1]) else s
  }

  function AfterLastSlash(s: string): (r: string)
    requires s != "" && s[|s| - 1] != '/'
    ensures r != "" && '/' !in r
    ensures HasSuffix(s, r)
  {
    if |s| == 1 || s[|s| - 2] == '/' then [s[|s| - 1]]
    else AfterLastSlash(s[..|s| - 1]) + [s[|s| - 1]]
  }

  /** The UTF-8 encoding of one character, as Go's []byte(string) produces it. */
  function EncodeChar(c: char): (r: seq<bv8>)
    ensures 1 <= |r| <= 4
    ensures (c as int) < 0x80 <==> |r| == 1
  {
    var n := c as int;
    if n < 0x80 then [n as bv8]
    else if n < 0x800 then [(0xC0 + n / 0x40) as bv8, (0x80 + n % 0x40) as bv8]
    else if n < 0x10000 then
      [(0xE0 + n / 0x1000) as bv8, (0x80 + (n / 0x40) % 0x40) as bv8, (0x80 + n % 0x40) as bv8]
    else
      [(0xF0 + n / 0x40000) as bv8, (0x80 + (n / 0x1000) % 0x40) as bv8,
       (0x80 + (n / 0x40) % 0x40) as bv8, (0x80 + n % 0x40) as bv8]
  }

  /** []byte(s) */
  function Utf8(s: string): seq<bv8>
  {
    if s == [] then [] else EncodeChar(s[0]) + Utf8(s[1..])
  }

  /** Every character takes at least one byte, so only the empty text has no bytes. */
  lemma {:induction false} Utf8Length(s: string)
    ensures |Utf8(s)| >= |s|
    ensures Utf8(s) == [] <==> s == []
  {
    if s != [] {
      Utf8Length(s[1..]);
    }
  }

  lemma {:induction false} Utf8Append(a: string, b: string)
    ensures Utf8(a + b) == Utf8(a) + Utf8(b)
  {
    if a == [] {
      assert a + b == b;
    } else {
      assert (a + b)[0] == a[0];
      assert (a + b)[1..] == a[1..] + b;
      Utf8Append(a[1..], b);
    }
  }


  /** A field that can travel through the text form: it holds neither separator. */
  predicate Plain(field: string) {
    ':' !in field && ',' !in field
  }

  lemma {:induction false} LowerConcat(a: string, b: string)
    requires IsLower(a) && IsLower(b)
    ensures IsLower(a + b)
  {
    LowerAppend(a, b);
  }

  lemma {:induction false} NoUpperIsLower(s: string)
    requires forall i :: 0 <= i < |s| ==> !('A' <= s[i] <= 'Z')
    ensures IsLower(s)
  {
  }

  /** Splitting "kind:a,b[,c]" once at ':' and then at ',' recovers the kind and the fields. */
  lemma {:induction false} SplitFields(kind: string, fields: seq<string>)
    requires ':' !in kind && 1 <= |fields| <= 3
    requires forall i :: 0 <= i < |fields| ==> Plain(fields[i])
    ensures var text := Join(fields);
      Split(kind + ":" + text, ':') == [kind, text] && Split(text, ',') == fields
  {
    var text := Join(fields);
    JoinPlain(fields);
    assert kind + ":" + text == kind + [':'] + text;
    SplitAtSeparator(kind, ':', text);
    SplitNoSeparator(text, ':');
    if |fields| == 1 {
      SplitNoSeparator(fields[0], ',');
    } else {
      var rest := fields[1..];
      JoinPlain(rest);
      SplitAtSeparator(fields[0], ',', Join(rest));
      if |fields| == 2 {
        SplitNoSeparator(fields[1], ',');
      } else {
        assert rest == [fields[1], fields[2]] && rest[1..] == [fields[2]];
        SplitAtSeparator(fields[1], ',', fields[2]);
        SplitNoSeparator(fields[2], ',');
      }
    }
  }

  /** The "kind:f1,f2,f3" layout the location ids print themselves in. */
  function Render(kind: string, fields: seq<string>): string
    requires 1 <= |fields| <= 3
  {
    kind + ":" + Join(fields)
  }

  /** The fields joined with ','. */
  function Join(fields: seq<string>): string
    requires 1 <= |fields| <= 3
  {
    if |fields| == 1 then fields[0]
    else if |fields| == 2 then fields[0] + "," + fields[1]
    else fields[0] + "," + fields[1] + "," + fields[2]
  }

  /** Render over one, two or three fields, written out. */
  lemma RenderFields(kind: string, a: string, b: string, c: string)
    ensures Render(kind, [a]) == kind + ":" + a
    ensures Render(kind, [a, b]) == kind + ":" + a + "," + b
    ensures Render(kind, [a, b, c]) == kind + ":" + a + "," + b + "," + c
  {
  }

  lemma {:induction false} JoinPlain(fields: seq<string>)
    requires 1 <= |fields| <= 3
    requires forall i :: 0 <= i < |fields| ==> Plain(fields[i])
    ensures ':' !in Join(fields)
    ensures |fields| >= 2 ==> Join(fields) == fields[0] + [','] + Join(fields[1..])
  {
    if |fields| == 2 {
      assert fields[1..] == [fields[1]];
    } else if |fields| == 3 {
      assert fields[1..] == [fields[1], fields[2]];
      assert fields[0] + "," + fields[1] + "," + fields[2] == fields[0] + [','] + (fields[1] + "," + fields[2]);
    }
  }

  lemma {:induction false} JoinLower(fields: seq<string>)
    requires 1 <= |fields| <= 3
    requires forall i :: 0 <= i < |fields| ==> IsLower(fields[i])
    ensures IsLower(Join(fields))
  {
    NoUpperIsLower(",");
    if |fields| >= 2 {
      LowerConcat(fields[0], ",");
      LowerConcat(fields[0] + ",", fields[1]);
    }
    if |fields| == 3 {
      LowerConcat(fields[0] + "," + fields[1], ",");
      LowerConcat(fields[0] + "," + fields[1] + ",", fields[2]);
    }
  }

  /** The text "kind:f1[,f2[,f3]]" of lower-case plain fields: lower-casing leaves it alone, and
      splitting it at ':' and then at ',' gives back the kind and the fields. */
  lemma {:induction false} ParseRendered(kind: string, fields: seq<string>)
    requires ':' !in kind && forall i :: 0 <= i < |kind| ==> !('A' <= kind[i] <= 'Z')
    requires 1 <= |fields| <= 3
    requires forall i :: 0 <= i < |fields| ==> Plain(fields[i]) && IsLower(fields[i])
    ensures var text := kind + ":" + Join(fields);
      ToLower(text) == text && Split(text, ':') == [kind, Join(fields)]
      && Split(Join(fields), ',') == fields
  {
    SplitFields(kind, fields);
    NoUpperIsLower(kind + ":");
    JoinLower(fields);
    LowerConcat(kind + ":", Join(fields));
    assert kind + ":" + Join(fields) == (kind + ":") + Join(fields);
  }
}
