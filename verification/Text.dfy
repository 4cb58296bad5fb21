/** The string operations addresses go through: strings.TrimSpace, strings.Split and strings.Join at
    commas, and strings.ToLower. */
module Text {
  /** unicode.IsSpace. */
  predicate IsSpace(c: char) {
    || '\t' <= c <= '\r' || c == ' ' || c == '\U{85}' || c == '\U{A0}' || c == '\U{1680}'
    || '\U{2000}' <= c <= '\U{200A}' || c == '\U{2028}' || c == '\U{2029}' || c == '\U{202F}'
    || c == '\U{205F}' || c == '\U{3000}'
  }

  function TrimLeft(s: string): string {
    if s != "" && IsSpace(s[0]) then TrimLeft(s[1..]) else s
  }

  function TrimRight(s: string): string {
    if s != "" && IsSpace(s[|s| - 1]) then TrimRight(s[..|s| - 1]) else s
  }

  function Trim(s: string): string { TrimRight(TrimLeft(s)) }

  predicate Trimmed(s: string) { s == "" || (!IsSpace(s[0]) && !IsSpace(s[|s| - 1])) }

  lemma {:induction false} TrimLeftTrims(s: string)
    ensures var r := TrimLeft(s); (r == "" || !IsSpace(r[0])) && forall c :: c in r ==> c in s
  {
    if s != "" && IsSpace(s[0]) { TrimLeftTrims(s[1..]); }
  }

  lemma {:induction false} TrimRightTrims(s: string)
    ensures var r := TrimRight(s);
            r <= s && (r == "" || !IsSpace(r[|r| - 1])) && forall c :: c in r ==> c in s
  {
    if s != "" && IsSpace(s[|s| - 1]) { TrimRightTrims(s[..|s| - 1]); }
  }

  /** A trimmed string has no space at either end and no character of its own, and trimming it again
      changes nothing. */
  lemma TrimTrims(s: string)
    ensures Trimmed(Trim(s)) && Trim(Trim(s)) == Trim(s) && forall c :: c in Trim(s) ==> c in s
  {
    TrimLeftTrims(s);
    TrimRightTrims(TrimLeft(s));
    var r := Trim(s);
    assert r != "" ==> r[0] == TrimLeft(s)[0];
  }

  function Split(s: string): (parts: seq<string>)
    ensures parts != []
  {
    if s == "" then [""]
    else
      var rest := Split(s[1..]);
      if s[0] == ',' then [""] + rest else [[s[0]] + rest[0]] + rest[1..]
  }

  function Join(parts: seq<string>): string {
    if parts == [] then "" else if |parts| == 1 then parts[0] else parts[0] + "," + Join(parts[1..])
  }

  predicate NoCommas(parts: seq<string>) { forall i :: 0 <= i < |parts| ==> ',' !in parts[i] }

  /** Split takes a string apart at every comma, and Join undoes it. */
  lemma {:induction false} SplitParts(s: string)
    ensures NoCommas(Split(s)) && Join(Split(s)) == s
  {
    if s != "" {
      SplitParts(s[1..]);
      var rest := Split(s[1..]);
      assert s == [s[0]] + s[1..];
      if s[0] == ',' {
        assert ([""] + rest)[1..] == rest;
        assert Join([""] + rest) == "" + "," + Join(rest);
      } else {
        var first := [s[0]] + rest[0];
        assert ([first] + rest[1..])[1..] == rest[1..];
        if |rest| > 1 { assert [s[0]] + (rest[0] + "," + Join(rest[1..])) == first + "," + Join(rest[1..]); }
      }
    }
  }

  lemma {:induction false} SplitHead(part: string, tail: string)
    requires ',' !in part && (tail == "" || tail[0] == ',')
    ensures Split(part + tail) == [part] + Split(tail)[1..]
  {
    if part == "" {
      assert part + tail == tail;
      assert Split(tail)[0] == "";
    } else {
      assert (part + tail)[1..] == part[1..] + tail;
      SplitHead(part[1..], tail);
      assert [part[0]] + part[1..] == part;
    }
  }

  /** A list of entries without commas survives being joined and split. */
  lemma {:induction false} SplitJoin(parts: seq<string>)
    requires parts != [] && NoCommas(parts)
    ensures Split(Join(parts)) == parts
  {
    if |parts| == 1 {
      SplitHead(parts[0], "");
      assert parts[0] + "" == parts[0];
    } else {
      SplitJoin(parts[1..]);
      var tail := "," + Join(parts[1..]);
      SplitHead(parts[0], tail);
      assert Join(parts) == parts[0] + tail;
      assert tail[1..] == Join(parts[1..]);
      assert Split(tail) == [""] + parts[1..];
    }
  }

  /** strings.ToLower maps a string character by character. */
  function Lower(fold: char -> char, s: string): string { seq(|s|, i requires 0 <= i < |s| => fold(s[i])) }
}
