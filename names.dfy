/** Initials of a display name, `name.split(' ').map(w => w[0]).join('')`, the
    expression the avatar, the header and the project page share, and the
    `slice(0, n)` that shortens it. */
module Names {
  import opened Js

  /** `w[0]` of one word as `join` renders it: the `undefined` of an empty word
      (two blanks in a row) contributes nothing. */
  function Head(w: string): string
  {
    if w == [] then [] else [w[0]]
  }

  function Heads(words: seq<string>): string
  {
    if words == [] then [] else Head(words[0]) + Heads(words[1..])
  }

  /** `name.split(' ').map(w => w[0]).join('')` */
  function FirstLetters(name: string): string
  {
    Heads(Split(name, ' '))
  }

  /** The reference reading of "initials": every character that is not a blank
      and stands at the start of `s` (when `afterBlank`) or right after a
      blank. */
  function WordStarts(s: string, afterBlank: bool): string
  {
    if s == [] then []
    else (if afterBlank && s[0] != ' ' then [s[0]] else []) + WordStarts(s[1..], s[0] == ' ')
  }

  /** The split/map/join expression picks exactly the characters that start a
      word. */
  lemma {:induction false} FirstLettersAreWordStarts(s: string)
    ensures FirstLetters(s) == WordStarts(s, true)
    ensures Heads(Split(s, ' ')[1..]) == WordStarts(s, false)
  {
    if s != [] {
      FirstLettersAreWordStarts(s[1..]);
      var rest := Split(s[1..], ' ');
      if s[0] == ' ' {
        assert Split(s, ' ') == [""] + rest;
        assert ([""] + rest)[1..] == rest;
      } else {
        var parts := [[s[0]] + rest[0]] + rest[1..];
        assert Split(s, ' ') == parts;
        assert parts[1..] == rest[1..];
        assert Heads(parts) == [s[0]] + Heads(rest[1..]);
      }
    }
  }

  /** A name made of blanks only has no initials. */
  lemma {:induction false} BlankNameHasNoInitials(s: string, afterBlank: bool)
    requires forall i :: 0 <= i < |s| ==> s[i] == ' '
    ensures WordStarts(s, afterBlank) == []
  {
    if s != [] {
      BlankNameHasNoInitials(s[1..], true);
    }
  }

  /** A single word's initial is its first character. */
  lemma {:induction false} OneWordInitial(s: string)
    requires s != [] && s[0] != ' '
    requires forall i :: 0 <= i < |s| ==> s[i] != ' '
    ensures FirstLetters(s) == [s[0]]
  {
    FirstLettersAreWordStarts(s);
    NoBlankNoStarts(s[1..]);
  }

  lemma {:induction false} NoBlankNoStarts(s: string)
    requires forall i :: 0 <= i < |s| ==> s[i] != ' '
    ensures WordStarts(s, false) == []
  {
    if s != [] {
      NoBlankNoStarts(s[1..]);
    }
  }

  /** There are never more initials than characters. */
  lemma {:induction false} WordStartsShorter(s: string, afterBlank: bool)
    ensures |WordStarts(s, afterBlank)| <= |s|
  {
    if s != [] {
      WordStartsShorter(s[1..], s[0] == ' ');
    }
  }

  /** `s.slice(0, n)` for a non-negative `n`. */
  function Slice(s: string, n: nat): (r: string)
    ensures |r| == if |s| <= n then |s| else n
    ensures IsPrefix(r, s)
  {
    if |s| <= n then s else s[..n]
  }

  /** The initials shown in a round avatar: 'U' for a missing or empty name,
      otherwise the upper-cased word initials cut to two characters. */
  function ShortInitials(name: string): (r: string)
    ensures name == "" ==> r == "U"
    ensures name != "" ==> r == Slice(Upper(WordStarts(name, true)), 2)
    ensures |r| <= 2
  {
    FirstLettersAreWordStarts(name);
    if name == "" then "U" else Slice(Upper(FirstLetters(name)), 2)
  }
}
