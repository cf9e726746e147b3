/**
 Robot mode names: trimming, lower-casing and the table of mode codes.
 */
module ModeNames {
  import opened Options

  predicate IsSpace(c: char)
  {
    c == ' ' || c == '\t' || c == '\n' || c == '\r' || c == '\U{000B}' || c == '\U{000C}'
  }

  function Lower(c: char): char
  {
    if 'A' <= c <= 'Z' then (c as int + 32) as char else c
  }

  predicate AllSpace(s: string) { forall i :: 0 <= i < |s| ==> IsSpace(s[i]) }

  // The part of the name between its outer blanks.
  function Trimmed(s: string): string
  {
    if s == [] then []
    else if IsSpace(s[0]) then Trimmed(s[1..])
    else if IsSpace(s[|s| - 1]) then Trimmed(s[..|s| - 1])
    else s
  }

  function Lowered(s: string): string { seq(|s|, i requires 0 <= i < |s| => Lower(s[i])) }

  function Normalized(s: string): string { Lowered(Trimmed(s)) }

  function TableCode(name: string): Option<nat>
  {
    match name
    case "damping" => Some(0xA101)
    case "stand" => Some(0xA102)
    case "down" => Some(0xA103)
    case "move" => Some(0xA104)
    case "auto_charge" => Some(0xA105)
    case "exit_charge" => Some(0xA106)
    case "recover" => Some(0xA1FF)
    case "recovery" => Some(0xA1FF)
    case _ => None
  }

  // The documented names and codes.
  const MODES: set<(string, nat)> :=
    {("damping", 0xA101), ("stand", 0xA102), ("down", 0xA103), ("move", 0xA104), ("auto_charge", 0xA105),
     ("exit_charge", 0xA106), ("recover", 0xA1FF), ("recovery", 0xA1FF)}

  lemma TableMeaning(name: string, code: nat)
    ensures TableCode(name) == Some(code) <==> (name, code) in MODES
  {
  }

  function ModeCode(name: string): Option<nat> { TableCode(Normalized(name)) }

  predicate OccursAt(text: string, word: string, i: nat)
  {
    i + |word| <= |text| && text[i..i + |word|] == word
  }

  // The word occurs in the text.
  predicate Mentions(text: string, word: string)
  {
    exists i :: 0 <= i <= |text| && OccursAt(text, word, i)
  }

  // The reason given for a name that is not in the table.
  function UnknownReason(name: string): string { "unknown robot mode: " + Normalized(name) }

  // The reason mentions "pending" exactly when the normalized name does.
  lemma ReasonMentions(name: string)
    ensures Mentions(UnknownReason(name), "pending") <==> Mentions(Normalized(name), "pending")
  {
    var prefix, text, word := "unknown robot mode: ", UnknownReason(name), "pending";
    if i :| 0 <= i <= |text| && OccursAt(text, word, i) {
      assert text[i] == text[i..i + |word|][0] == 'p';
      assert i >= |prefix|;
      assert Normalized(name)[i - |prefix|..i - |prefix| + |word|] == text[i..i + |word|];
      assert OccursAt(Normalized(name), word, i - |prefix|);
    }
    if i :| 0 <= i <= |Normalized(name)| && OccursAt(Normalized(name), word, i) {
      assert text[i + |prefix|..i + |prefix| + |word|] == Normalized(name)[i..i + |word|];
      assert OccursAt(text, word, i + |prefix|);
    }
  }

  lemma {:induction false} TrimFront(blank: string, s: string)
    requires AllSpace(blank)
    ensures Trimmed(blank + s) == Trimmed(s)
  {
    if blank == [] {
      assert blank + s == s;
    } else {
      assert (blank + s)[1..] == blank[1..] + s;
      TrimFront(blank[1..], s);
    }
  }

  lemma {:induction false} TrimBack(s: string, blank: string)
    requires AllSpace(blank)
    ensures Trimmed(s + blank) == Trimmed(s)
  {
    if s == [] {
      TrimFront(blank, s);
      assert s + blank == blank + s;
    } else if IsSpace(s[0]) {
      assert (s + blank)[1..] == s[1..] + blank;
      TrimBack(s[1..], blank);
    } else if blank == [] {
      assert s + blank == s;
    } else {
      var n := |blank| - 1;
      assert (s + blank)[..|s + blank| - 1] == s + blank[..n];
      TrimBack(s, blank[..n]);
    }
  }

  lemma {:induction false} TrimmedEnds(s: string)
    ensures Trimmed(s) != [] ==> !IsSpace(Trimmed(s)[0]) && !IsSpace(Trimmed(s)[|Trimmed(s)| - 1])
  {
    if s != [] {
      if IsSpace(s[0]) {
        TrimmedEnds(s[1..]);
      } else if IsSpace(s[|s| - 1]) {
        TrimmedEnds(s[..|s| - 1]);
      }
    }
  }

  // MAIN RESULT. Outer blanks and letter case never change which mode a name
  // denotes, and normalizing twice is normalizing once.
  lemma NameInsensitive(front: string, s: string, t: string, back: string)
    requires AllSpace(front) && AllSpace(back) && Lowered(s) == Lowered(t)
    ensures Normalized(front + s + back) == Normalized(t)
    ensures Normalized(Normalized(s)) == Normalized(s)
  {
    TrimBack(front + s, back);
    TrimFront(front, s);
    TrimLowered(s);
    TrimLowered(t);
    TrimTwice(s);
    LowerTwice(Trimmed(Trimmed(s)));
    TrimLowered(Trimmed(s));
  }

  lemma LowerKeepsSpace(c: char)
    ensures IsSpace(Lower(c)) <==> IsSpace(c)
  {
  }

  lemma {:induction false} TrimLowered(s: string)
    ensures Trimmed(Lowered(s)) == Lowered(Trimmed(s))
  {
    if s != [] {
      LowerKeepsSpace(s[0]);
      LowerKeepsSpace(s[|s| - 1]);
      if IsSpace(s[0]) {
        assert Lowered(s)[1..] == Lowered(s[1..]);
        TrimLowered(s[1..]);
      } else if IsSpace(s[|s| - 1]) {
        assert Lowered(s)[..|s| - 1] == Lowered(s[..|s| - 1]);
        TrimLowered(s[..|s| - 1]);
      }
    }
  }

  lemma TrimTwice(s: string)
    ensures Trimmed(Trimmed(s)) == Trimmed(s)
  {
    TrimmedEnds(s);
  }

  lemma LowerTwice(s: string)
    ensures Lowered(Lowered(s)) == Lowered(s)
  {
    assert forall i :: 0 <= i < |s| ==> Lowered(Lowered(s))[i] == Lower(Lower(s[i])) == Lowered(s)[i];
  }

  // A name that is already trimmed and lower-case is kept.
  lemma NormalKept(s: string)
    requires forall i :: 0 <= i < |s| ==> !IsSpace(s[i]) && Lower(s[i]) == s[i]
    ensures Normalized(s) == s
  {
    assert Trimmed(s) == s;
  }

  // normalized_mode, with the two scans and the conversion of the original.
  method NormalizedMode(input: string) returns (value: string)
    ensures value == Normalized(input)
  {
    var first := 0;
    while first < |input| && IsSpace(input[first])
      invariant first <= |input|
      invariant Trimmed(input) == Trimmed(input[first..])
    {
      assert input[first..][1..] == input[first + 1..];
      first := first + 1;
    }
    var last := |input|;
    assert input[first..last] == input[first..];
    while last > first && IsSpace(input[last - 1])
      invariant first <= last <= |input|
      invariant first < last ==> !IsSpace(input[first])
      invariant Trimmed(input) == Trimmed(input[first..last])
    {
      assert input[first..last][..last - 1 - first] == input[first..last - 1];
      last := last - 1;
    }
    assert Trimmed(input) == input[first..last];
    value := [];
    for i := first to last
      invariant |value| == i - first
      invariant forall k :: 0 <= k < i - first ==> value[k] == Lower(input[first + k])
    {
      value := value + [Lower(input[i])];
    }
  }
}
