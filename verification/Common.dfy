/** Shared value types and the string operations the modelled programs use.
    `p <= s` on sequences is JavaScript's `s.startsWith(p)`. */
module Common {

  datatype Option<+T> = None | Some(value: T)

  /** `String.prototype.toLowerCase` as far as a comparison with an ASCII constant can see it:
      the capitals and the Kelvin sign are the only characters whose lower case is ASCII. */
  function LowerChar(c: char): char {
    if 'A' <= c <= 'Z' then ((c as int) + 32) as char
    else if c == '\U{212A}' then 'k'
    else c
  }

  function ToLower(s: string): (r: string)
    ensures |r| == |s|
    ensures forall i :: 0 <= i < |s| ==> r[i] == LowerChar(s[i])
  {
    seq(|s|, i requires 0 <= i < |s| => LowerChar(s[i]))
  }

  /** The word is the name but for letter case. */
  predicate Spells(word: string, name: string) {
    |word| == |name| &&
    forall i :: 0 <= i < |name| ==>
      || word[i] == name[i]
      || ('a' <= name[i] <= 'z' && word[i] as int == name[i] as int - 32)
      || (name[i] == 'k' && word[i] as int == 8490)
  }

  predicate IsSmall(name: string) { forall c <- name :: 'a' <= c <= 'z' || c == '_' }

  lemma LowerSpells(word: string, name: string)
    requires IsSmall(name)
    ensures ToLower(word) == name <==> Spells(word, name)
  {
    if |word| == |name| {
      forall i | 0 <= i < |name|
        ensures ToLower(word)[i] == name[i] <==>
          (word[i] == name[i] || ('a' <= name[i] <= 'z' && word[i] as int == name[i] as int - 32) || (name[i] == 'k' && word[i] as int == 8490))
      {
        assert name[i] in name;
      }
    }
  }

  /** White space and line terminators of ECMA-262 (sections 12.2 and 12.3). */
  predicate IsSpace(c: char) {
    || '\U{0009}' <= c <= '\U{000D}'
    || c in {' ', '\U{00A0}', '\U{1680}', '\U{2028}', '\U{2029}', '\U{202F}', '\U{205F}', '\U{3000}', '\U{FEFF}'}
    || '\U{2000}' <= c <= '\U{200A}'
  }

  function TrimStart(s: string): string {
    if s != [] && IsSpace(s[0]) then TrimStart(s[1..]) else s
  }

  function TrimEnd(s: string): string {
    if s != [] && IsSpace(s[|s| - 1]) then TrimEnd(s[..|s| - 1]) else s
  }

  function Trim(s: string): string {
    TrimEnd(TrimStart(s))
  }

  lemma {:induction false} TrimStartStrips(before: string, s: string)
    requires (forall c <- before :: IsSpace(c)) && (s != "" ==> !IsSpace(s[0]))
    ensures TrimStart(before + s) == s
  {
    if before == "" {
      assert before + s == s;
    } else {
      assert before[0] in before;
      TrimStartStrips(before[1..], s);
      assert (before + s)[1..] == before[1..] + s;
    }
  }

  lemma {:induction false} TrimEndStrips(s: string, after: string)
    requires (forall c <- after :: IsSpace(c)) && (s != "" ==> !IsSpace(s[|s| - 1]))
    ensures TrimEnd(s + after) == s
  {
    if after == "" {
      assert s + after == s;
    } else {
      assert after[|after| - 1] in after;
      TrimEndStrips(s, after[..|after| - 1]);
      assert (s + after)[..|s + after| - 1] == s + after[..|after| - 1];
    }
  }

  /** Trimming takes off exactly the white space around a text. */
  lemma TrimStrips(before: string, s: string, after: string)
    requires (forall c <- before :: IsSpace(c)) && (forall c <- after :: IsSpace(c))
    requires s != "" ==> !IsSpace(s[0]) && !IsSpace(s[|s| - 1])
    ensures Trim(before + s + after) == s
  {
    hide IsSpace;
    if s == "" {
      TrimStartStrips(before + s + after, "");
      assert before + s + after + "" == before + s + after;
    } else {
      TrimStartStrips(before, s + after);
      assert before + s + after == before + (s + after);
      TrimEndStrips(s, after);
    }
  }

  /** `String.prototype.includes` */
  predicate Contains(s: string, part: string) {
    exists i :: 0 <= i <= |s| - |part| && s[i..][..|part|] == part
  }

  /** Wherever it stands. */
  lemma ContainsAnywhere(s: string, part: string)
    ensures Contains(s, part) <==> exists before: string, after: string :: s == before + part + after
  {
    if Contains(s, part) {
      var i :| 0 <= i <= |s| - |part| && s[i..][..|part|] == part;
      assert s == s[..i] + part + s[i + |part|..];
    }
    if before: string, after: string :| s == before + part + after {
      assert s[|before|..][..|part|] == part;
    }
  }
}
