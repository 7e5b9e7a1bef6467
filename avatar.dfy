/** The round user avatar: an image when a picture URL is given, otherwise a
    badge with the user's initials. */
module Avatar {
  import opened Js
  import opened Names

  datatype Rendering =
    | Image(src: string, alt: string, sizeClass: string)
    | InitialsBadge(initials: string, sizeClass: string)

  /** The Tailwind width and height classes for a size. */
  function SizeClass(size: int): string
  {
    "w-" + IntToString(size) + " h-" + IntToString(size)
  }

  /** What the avatar renders for a name (missing, null and '' are all the
      empty string here), a picture URL and a size. */
  function Render(name: string, src: string, size: int): (r: Rendering)
    ensures r.Image? <==> src != ""
    ensures r.Image? ==> r.src == src && r.alt == name
    ensures r.InitialsBadge? ==> r.initials == ShortInitials(name) && |r.initials| <= 2
    ensures r.sizeClass == SizeClass(size)
  {
    var initials := ShortInitials(name);
    if src != "" then Image(src, name, SizeClass(size)) else InitialsBadge(initials, SizeClass(size))
  }

  /** A name of blanks only is truthy, so it does not get the 'U' fallback: the
      badge is empty. */
  lemma BlankNameShowsNothing(name: string, size: int)
    requires name != [] && forall i :: 0 <= i < |name| ==> name[i] == ' '
    ensures Render(name, "", size) == InitialsBadge("", SizeClass(size))
  {
    BlankNameHasNoInitials(name, true);
  }

  /** A two-word name shows the upper-cased first letters of both words. */
  lemma TwoWordName(first: string, last: string, size: int)
    requires first != [] && last != []
    requires forall i :: 0 <= i < |first| ==> first[i] != ' '
    requires forall i :: 0 <= i < |last| ==> last[i] != ' '
    ensures Render(first + " " + last, "", size) == InitialsBadge([UpperChar(first[0]), UpperChar(last[0])], SizeClass(size))
  {
    var name := first + " " + last;
    SplitNoSep(first, ' ');
    SplitNoSep(last, ' ');
    SplitAppend(first, last, ' ');
    assert Split(name, ' ') == [first, last];
    assert Heads([first, last]) == [first[0], last[0]] by {
      assert [first, last][1..] == [last];
      assert Heads([last]) == [last[0]] by { assert [last][1..] == []; }
    }
  }
}
