/** The mask compiler: wildcard masks (section 2.5 of RFC 2812) to regular expressions. */
module Masks {
  import opened Text

  const METACHARACTERS := "\\.+*?()|[]{}^$"

  // ---- What a mask means ----------------------------------------------------------

  /** `s` is matched by the wildcard mask: '?' one byte, '*' any run, a backslash quotes
      the next byte, and a backslash at the very end stands for nothing. */
  predicate Wild(mask: string, s: string)
    decreases |mask| + |s|
  {
    if mask == "" then s == ""
    else if mask[0] == '?' then s != "" && Wild(mask[1..], s[1..])
    else if mask[0] == '*' then Wild(mask[1..], s) || (s != "" && Wild(mask, s[1..]))
    else if mask[0] != '\\' then s != "" && s[0] == mask[0] && Wild(mask[1..], s[1..])
    else if |mask| == 1 then s == ""
    else s != "" && s[0] == mask[1] && Wild(mask[2..], s[1..])
  }

  function Newline(c: char): nat { if c == '\n' then 1 else 0 }

  function Newlines(s: string): nat
  {
    if s == "" then 0 else Newline(s[0]) + Newlines(s[1..])
  }

  /** How many newlines the mask asks for itself, outside its wildcards. */
  function QuotedNewlines(mask: string, inEscape: bool): nat
  {
    if mask == "" then 0
    else if inEscape || mask[0] !in "?*\\" then Newline(mask[0]) + QuotedNewlines(mask[1..], false)
    else QuotedNewlines(mask[1..], mask[0] == '\\')
  }

  // ---- What a regular expression means --------------------------------------------

  datatype Atom = Exactly(c: char) | AnyChar
  datatype Item = Once(atom: Atom) | Star(atom: Atom)

  /** Reads the subset of Go's regexp syntax made of literals, quoted metacharacters,
      '.' and a postfix '*'; None for anything else. */
  function ReadRegexp(pattern: string): Option<seq<Item>>
    decreases |pattern|, 0
  {
    if pattern == "" then Some([])
    else if pattern[0] == '\\' then
      if |pattern| >= 2 && pattern[1] in METACHARACTERS
      then Starred(Exactly(pattern[1]), pattern[2..]) else None
    else if pattern[0] == '.' then Starred(AnyChar, pattern[1..])
    else if pattern[0] in METACHARACTERS then None
    else Starred(Exactly(pattern[0]), pattern[1..])
  }

  function Starred(atom: Atom, rest: string): Option<seq<Item>>
    decreases |rest|, 1
  {
    var starred := rest != "" && rest[0] == '*';
    match ReadRegexp(if starred then rest[1..] else rest)
    case Some(items) => Some([if starred then Star(atom) else Once(atom)] + items)
    case None => None
  }

  predicate AtomMatches(atom: Atom, c: char)
  {
    if atom.AnyChar? then c != '\n' else c == atom.c
  }

  /** The whole of `s` is matched by the items, as with an anchored pattern. */
  predicate Matches(items: seq<Item>, s: string)
    decreases |items| + |s|
  {
    if items == [] then s == ""
    else match items[0]
    case Once(atom) => s != "" && AtomMatches(atom, s[0]) && Matches(items[1..], s[1..])
    case Star(atom) =>
      Matches(items[1..], s) || (s != "" && AtomMatches(atom, s[0]) && Matches(items, s[1..]))
  }

  // ---- The compiler ---------------------------------------------------------------

  /** `regexp.QuoteMeta`. */
  function QuoteMeta(s: string): string
  {
    if s == "" then ""
    else (if s[0] in METACHARACTERS then ['\\', s[0]] else [s[0]]) + QuoteMeta(s[1..])
  }

  /** What is still to be emitted when `mask` is left to read. */
  ghost function Emission(mask: string, inEscape: bool): string
  {
    if mask == "" then ""
    else if inEscape then QuoteMeta([mask[0]]) + Emission(mask[1..], false)
    else if mask[0] == '?' then "." + Emission(mask[1..], false)
    else if mask[0] == '*' then ".*" + Emission(mask[1..], false)
    else if mask[0] == '\\' then Emission(mask[1..], true)
    else QuoteMeta([mask[0]]) + Emission(mask[1..], false)
  }

  lemma {:induction false} QuoteMetaExtends(s: string, c: char)
    ensures QuoteMeta(s + [c]) == QuoteMeta(s) + QuoteMeta([c])
  {
    if s != "" {
      QuoteMetaExtends(s[1..], c);
      assert (s + [c])[1..] == s[1..] + [c];
    }
  }

  /** The program's one loop over the mask, with quoting put off until a chunk ends. */
  method ToRegexp(mask: string) returns (rePat: string)
    ensures ReadRegexp(rePat).Some?
    ensures forall s ::
              Matches(ReadRegexp(rePat).value, s) <==>
              Wild(mask, s) && Newlines(s) == QuotedNewlines(mask, false)
    ensures forall s | '\n' !in s :: Matches(ReadRegexp(rePat).value, s) <==> Wild(mask, s)
  {
    rePat := "";
    var nextChunk, inEscape := "", false;
    for i := 0 to |mask|
      invariant rePat + QuoteMeta(nextChunk) + Emission(mask[i..], inEscape) == Emission(mask, false)
    {
      var c := mask[i];
      EmissionStep(rePat, nextChunk, mask[i..], inEscape);
      assert mask[i..][1..] == mask[i + 1..];
      if inEscape {
        nextChunk, inEscape := nextChunk + [c], false;
      } else if c == '?' {
        rePat, nextChunk := rePat + QuoteMeta(nextChunk) + ".", "";
      } else if c == '*' {
        rePat, nextChunk := rePat + QuoteMeta(nextChunk) + ".*", "";
      } else if c == '\\' {
        inEscape := true;
      } else {
        nextChunk := nextChunk + [c];
      }
    }
    assert mask[|mask|..] == "";
    rePat := rePat + QuoteMeta(nextChunk);
    assert rePat == Emission(mask, false);
    EmissionReadsBack(mask, false);
    EmissionMeansMask(mask);
  }

  /** One byte of the mask moves from what is left to what has been emitted or queued. */
  lemma EmissionStep(rePat: string, chunk: string, mask: string, inEscape: bool)
    requires mask != ""
    ensures var before := rePat + QuoteMeta(chunk) + Emission(mask, inEscape);
            var rest := mask[1..];
            if inEscape || mask[0] !in "?*\\" then
              before == rePat + QuoteMeta(chunk + [mask[0]]) + Emission(rest, false)
            else if mask[0] == '\\' then
              before == rePat + QuoteMeta(chunk) + Emission(rest, true)
            else
              before == rePat + QuoteMeta(chunk) + (if mask[0] == '?' then "." else ".*")
                        + QuoteMeta("") + Emission(rest, false)
  {
    var quoted, rest := QuoteMeta(chunk), Emission(mask[1..], false);
    if inEscape || mask[0] !in "?*\\" {
      QuoteMetaExtends(chunk, mask[0]);
      Regroup(rePat, quoted, QuoteMeta([mask[0]]), rest);
    } else if mask[0] != '\\' {
      var emitted := if mask[0] == '?' then "." else ".*";
      Regroup(rePat, quoted, emitted, rest);
      assert rePat + quoted + emitted + "" == rePat + quoted + emitted;
    }
  }

  lemma Regroup(a: string, b: string, c: string, d: string)
    ensures a + b + (c + d) == a + (b + c) + d == a + b + c + d
  {
  }

  // ---- Why the compiler is right --------------------------------------------------

  /** The items the emitted pattern consists of. */
  ghost function Items(mask: string, inEscape: bool): seq<Item>
  {
    if mask == "" then []
    else if inEscape then [Once(Exactly(mask[0]))] + Items(mask[1..], false)
    else if mask[0] == '?' then [Once(AnyChar)] + Items(mask[1..], false)
    else if mask[0] == '*' then [Star(AnyChar)] + Items(mask[1..], false)
    else if mask[0] == '\\' then Items(mask[1..], true)
    else [Once(Exactly(mask[0]))] + Items(mask[1..], false)
  }

  lemma {:induction false} EmissionReadsBack(mask: string, inEscape: bool)
    ensures ReadRegexp(Emission(mask, inEscape)) == Some(Items(mask, inEscape))
    ensures Emission(mask, inEscape) != "" ==> Emission(mask, inEscape)[0] != '*'
  {
    if mask != "" {
      var rest := Emission(mask[1..], false);
      EmissionReadsBack(mask[1..], false);
      if inEscape || mask[0] !in "?*\\" {
        QuotedReadsBack(mask[0], rest);
      } else if mask[0] == '?' {
        assert ("." + rest)[1..] == rest;
      } else if mask[0] == '*' {
        assert (".*" + rest)[1..][1..] == rest;
      } else {
        EmissionReadsBack(mask[1..], true);
      }
    }
  }

  lemma QuotedReadsBack(c: char, rest: string)
    requires ReadRegexp(rest).Some? && (rest != "" ==> rest[0] != '*')
    ensures ReadRegexp(QuoteMeta([c]) + rest) == Some([Once(Exactly(c))] + ReadRegexp(rest).value)
  {
    assert QuoteMeta([c][1..]) == "";
    var pattern := QuoteMeta([c]) + rest;
    if c in METACHARACTERS {
      assert pattern[0] == '\\' && pattern[1] == c && pattern[2..] == rest;
    } else {
      assert pattern[0] == c && pattern[1..] == rest;
    }
  }

  lemma EmissionMeansMask(mask: string)
    ensures forall s ::
              Matches(Items(mask, false), s) <==>
              Wild(mask, s) && Newlines(s) == QuotedNewlines(mask, false)
    ensures forall s | '\n' !in s :: Matches(Items(mask, false), s) <==> Wild(mask, s)
  {
    forall s: string
      ensures Matches(Items(mask, false), s) <==>
              Wild(mask, s) && Newlines(s) == QuotedNewlines(mask, false)
      ensures '\n' !in s ==> (Matches(Items(mask, false), s) <==> Wild(mask, s))
    {
      ItemsMeanMask(mask, s);
      if '\n' !in s { NoNewlines(s); }
    }
  }

  /** The compiled "?" is ".", which takes no newline, where the mask takes any byte. */
  lemma NewlineIsNotADot()
    ensures Emission("?", false) == "." && ReadRegexp(".") == Some([Once(AnyChar)])
    ensures Wild("?", "\n") && !Matches([Once(AnyChar)], "\n")
  {
    assert "?"[1..] == "" && "\n"[1..] == "" && "."[1..] == "";
    assert Emission("", false) == "" && ReadRegexp("") == Some([]);
    assert [Once(AnyChar)] + [] == [Once(AnyChar)];
  }

  lemma {:induction false} NoNewlines(s: string)
    requires '\n' !in s
    ensures Newlines(s) == 0
  {
    if s != "" { NoNewlines(s[1..]); }
  }

  /** A mask's own newlines are matched by nothing else, so a match never has fewer; the
      regular expression is the stricter of the two just when a wildcard takes one more. */
  lemma {:induction false} ItemsMeanMask(mask: string, s: string)
    ensures Wild(mask, s) ==> Newlines(s) >= QuotedNewlines(mask, false)
    ensures Matches(Items(mask, false), s) <==>
            Wild(mask, s) && Newlines(s) == QuotedNewlines(mask, false)
    decreases |mask| + |s|
  {
    if mask != "" {
      var items := Items(mask, false);
      if mask[0] == '\\' {
        if |mask| > 1 {
          var rest := Items(mask[2..], false);
          var quoted := mask[1..];
          assert quoted[0] == mask[1] && quoted[1..] == mask[2..];
          assert Items(quoted, true) == [Once(Exactly(quoted[0]))] + Items(quoted[1..], false);
          assert items[1..] == rest;
          assert QuotedNewlines(quoted, true) == Newline(quoted[0]) + QuotedNewlines(quoted[1..], false);
          if s != "" { ItemsMeanMask(mask[2..], s[1..]); }
        } else {
          assert mask[1..] == "";
        }
      } else {
        assert items[1..] == Items(mask[1..], false);
        if s != "" { ItemsMeanMask(mask[1..], s[1..]); }
        if mask[0] == '*' {
          ItemsMeanMask(mask[1..], s);
          if s != "" { ItemsMeanMask(mask, s[1..]); }
        }
      }
    }
  }
}
