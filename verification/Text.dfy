/** The string operations of Go's `strings` package that the program relies on.
    A Go string is a sequence of bytes; one `char` stands for one byte. */
module Text {

  datatype Option<+T> = None | Some(value: T)

  /** `strings.Split` for a one-byte separator. */
  function Split(s: string, sep: char): (parts: seq<string>)
    ensures |parts| >= 1
    ensures |parts| == 1 <==> sep !in s
  {
    if s == "" then [""]
    else
      var rest := Split(s[1..], sep);
      if s[0] == sep then [""] + rest else [[s[0]] + rest[0]] + rest[1..]
  }

  /** `strings.Join` for a one-byte separator. */
  function Join(parts: seq<string>, sep: char): string
    requires |parts| >= 1
  {
    if |parts| == 1 then parts[0] else parts[0] + [sep] + Join(parts[1..], sep)
  }

  lemma {:induction false} SplitThenJoin(s: string, sep: char)
    ensures Join(Split(s, sep), sep) == s
    ensures forall part | part in Split(s, sep) :: sep !in part
  {
    if s != "" {
      SplitThenJoin(s[1..], sep);
      var rest := Split(s[1..], sep);
      assert s == [s[0]] + s[1..];
      if s[0] == sep {
        assert ([""] + rest)[1..] == rest;
        assert "" + [sep] + s[1..] == s;
      } else {
        JoinLonger(s[0], rest, sep);
        assert sep !in rest[0];
      }
    }
  }

  lemma JoinLonger(c: char, parts: seq<string>, sep: char)
    requires |parts| >= 1
    ensures Join([[c] + parts[0]] + parts[1..], sep) == [c] + Join(parts, sep)
  {
    var longer := [[c] + parts[0]] + parts[1..];
    if |parts| > 1 {
      assert longer[1..] == parts[1..];
      var joined := Join(parts[1..], sep);
      assert [c] + parts[0] + [sep] + joined == [c] + (parts[0] + [sep] + joined);
    }
  }

  lemma {:induction false} SplitWhole(s: string, sep: char)
    requires sep !in s
    ensures Split(s, sep) == [s]
  {
    if s != "" {
      SplitWhole(s[1..], sep);
      assert s == [s[0]] + s[1..];
    }
  }

  lemma {:induction false} SplitInTwo(a: string, b: string, sep: char)
    requires sep !in a && sep !in b
    ensures Split(a + [sep] + b, sep) == [a, b]
  {
    var s := a + [sep] + b;
    if a == "" {
      SplitWhole(b, sep);
      assert s[1..] == b;
    } else {
      SplitInTwo(a[1..], b, sep);
      assert s[1..] == a[1..] + [sep] + b;
      assert [a[0]] + a[1..] == a;
    }
  }

  /** What follows the last separator is the last part. */
  lemma {:induction false} SplitEnd(a: string, b: string, sep: char)
    requires sep !in b
    ensures var parts := Split(a + [sep] + b, sep); parts[|parts| - 1] == b
  {
    var s := a + [sep] + b;
    if a == "" {
      SplitWhole(b, sep);
      assert s[1..] == b;
    } else {
      SplitEnd(a[1..], b, sep);
      assert s[1..] == a[1..] + [sep] + b;
      var rest := Split(s[1..], sep);
      assert |rest| > 1 by { assert s[1..][|a| - 1] == sep; }
    }
  }

  predicate IsBlank(c: char) { c == ' ' || c == '\r' || c == '\n' }

  /** `strings.Trim(s, " \r\n")`. */
  function Trim(s: string): string
  {
    if s != "" && IsBlank(s[0]) then Trim(s[1..])
    else if s != "" && IsBlank(s[|s| - 1]) then Trim(s[..|s| - 1])
    else s
  }

  /** Trimming takes spaces, CRs and LFs off both ends, all of them and nothing else. */
  lemma {:induction false} TrimExactly(s: string) returns (before: string, after: string)
    ensures s == before + Trim(s) + after
    ensures forall c | c in before + after :: c in " \r\n"
    ensures Trim(s) != "" ==> Trim(s)[0] !in " \r\n" && Trim(s)[|Trim(s)| - 1] !in " \r\n"
    decreases |s|
  {
    if s != "" && IsBlank(s[0]) {
      before, after := TrimExactly(s[1..]);
      before := [s[0]] + before;
    } else if s != "" && IsBlank(s[|s| - 1]) {
      before, after := TrimExactly(s[..|s| - 1]);
      after := after + [s[|s| - 1]];
    } else {
      before, after := "", "";
    }
  }

  /** `names` lists every element of `s` exactly once. */
  ghost predicate Enumerates<T(!new)>(names: seq<T>, s: set<T>)
  {
    && (forall x :: x in names <==> x in s)
    && (forall i, j | 0 <= i < j < |names| :: names[i] != names[j])
  }
}
