/**
 * The avatar fallback (apps/web/components/Avatar.tsx): the initials of a
 * name, taken as the first character of each space-separated segment, the
 * first two of them, upper-cased.
 */
module Avatar {

  /** `s.split(" ")`: the segments between single spaces, empty ones included. */
  function Split(s: string): (r: seq<string>)
    ensures |r| >= 1
    ensures forall i :: 0 <= i < |r| ==> ' ' !in r[i]
  {
    if s == [] then [""]
    else
      var rest := Split(s[1..]);
      if s[0] == ' ' then [""] + rest
      else [[s[0]] + rest[0]] + rest[1..]
  }

  /** `ws.join(" ")` */
  function Join(ws: seq<string>): string
    requires |ws| >= 1
  {
    if |ws| == 1 then ws[0] else ws[0] + " " + Join(ws[1..])
  }

  /** Splitting at spaces loses nothing: joining the segments gives the name back. */
  lemma {:induction false} JoinSplit(s: string)
    ensures Join(Split(s)) == s
  {
    if s != [] {
      var rest := Split(s[1..]);
      JoinSplit(s[1..]);
      if s[0] == ' ' {
        assert ([""] + rest)[1..] == rest;
      } else {
        var r := [[s[0]] + rest[0]] + rest[1..];
        if |rest| == 1 {
          assert r == [[s[0]] + rest[0]];
        } else {
          assert r[1..] == rest[1..];
        }
        assert s == [s[0]] + s[1..];
      }
    }
  }

  /** `n[0]`, where the `undefined` of an empty segment joins as "". */
  function Head(w: string): (r: string)
    ensures |r| <= 1 && (w != "" ==> r == [w[0]])
  {
    if w == "" then "" else [w[0]]
  }

  /** `ws.map(n => n[0]).join("")` */
  function FirstChars(ws: seq<string>): (r: string)
    ensures |r| <= |ws|
  {
    if ws == [] then "" else Head(ws[0]) + FirstChars(ws[1..])
  }

  /**
   * The reference definition: the characters of `s` that are not spaces and
   * start a word, that is, follow a space or the start of the name.
   * `afterSpace` says whether the character before `s` was a space (or
   * there was none).
   */
  function WordStarts(s: string, afterSpace: bool): (r: string)
    ensures |r| <= |s|
    ensures ' ' !in r
  {
    if s == [] then ""
    else (if s[0] != ' ' && afterSpace then [s[0]] else []) + WordStarts(s[1..], s[0] == ' ')
  }

  /**
   * The first characters of the segments are the word starts; those of all
   * segments but the first are the word starts after the first character.
   */
  lemma {:induction false} FirstCharsAreWordStarts(s: string)
    ensures FirstChars(Split(s)) == WordStarts(s, true)
    ensures FirstChars(Split(s)[1..]) == WordStarts(s, false)
  {
    if s != [] {
      FirstCharsAreWordStarts(s[1..]);
      var rest := Split(s[1..]);
      if s[0] == ' ' {
        assert ([""] + rest)[1..] == rest;
      } else {
        var r := [[s[0]] + rest[0]] + rest[1..];
        assert r[1..] == rest[1..];
        assert FirstChars(rest) == Head(rest[0]) + FirstChars(rest[1..]);
      }
    }
  }

  /** ASCII `toUpperCase` of one character. */
  function ToUpper(c: char): (r: char)
    ensures !('a' <= r <= 'z')
    ensures 'a' <= c <= 'z' ==> r as int == c as int - 32
    ensures !('a' <= c <= 'z') ==> r == c
  {
    if 'a' <= c <= 'z' then (c as int - 32) as char else c
  }

  function Upper(s: string): (r: string)
    ensures |r| == |s| && forall i :: 0 <= i < |s| ==> r[i] == ToUpper(s[i])
  {
    seq(|s|, i requires 0 <= i < |s| => ToUpper(s[i]))
  }

  /** `.slice(0, 2)` */
  function TakeTwo(s: string): (r: string)
    ensures |r| <= 2 && |r| <= |s| && r == s[..|r|]
    ensures |s| >= 2 ==> |r| == 2
    ensures |s| < 2 ==> r == s
  {
    if |s| <= 2 then s else s[..2]
  }

  /** `initials` */
  function Initials(name: string): (r: string)
    ensures |r| <= 2
    ensures forall i :: 0 <= i < |r| ==> !('a' <= r[i] <= 'z') && r[i] != ' '
  {
    var firsts := FirstChars(Split(name));
    FirstCharsAreWordStarts(name);
    Upper(TakeTwo(firsts))
  }

  /** The initials are the first two word starts, upper-cased. */
  lemma InitialsAreWordStarts(name: string)
    ensures Initials(name) == Upper(TakeTwo(WordStarts(name, true)))
  {
    FirstCharsAreWordStarts(name);
  }

  /** A name without any word, such as "" or "   ", has no initials. */
  lemma {:induction false} NoWordsNoInitials(name: string)
    requires forall i :: 0 <= i < |name| ==> name[i] == ' '
    ensures Initials(name) == ""
  {
    InitialsAreWordStarts(name);
    OnlySpacesNoStarts(name, true);
  }

  lemma {:induction false} OnlySpacesNoStarts(s: string, afterSpace: bool)
    requires forall i :: 0 <= i < |s| ==> s[i] == ' '
    ensures WordStarts(s, afterSpace) == ""
  {
    if s != [] {
      OnlySpacesNoStarts(s[1..], true);
    }
  }

  /** A word without spaces contributes its first character, if a space or the start precedes it. */
  lemma {:induction false} WordThenRest(w: string, s: string, afterSpace: bool)
    requires w != "" && ' ' !in w
    ensures WordStarts(w + s, afterSpace) == (if afterSpace then [w[0]] else []) + WordStarts(s, false)
  {
    assert (w + s)[0] == w[0];
    assert (w + s)[1..] == w[1..] + s;
    if |w| > 1 {
      WordThenRest(w[1..], s, false);
    } else {
      assert w[1..] + s == s;
    }
  }

  /** The first two words give the initials; later words do not count. */
  lemma TwoWords(w1: string, w2: string, rest: string)
    requires w1 != "" && ' ' !in w1 && w2 != "" && ' ' !in w2
    ensures Initials(w1 + " " + w2 + rest) == Upper([w1[0], w2[0]])
  {
    var tail := " " + (w2 + rest);
    var name := w1 + tail;
    assert w1 + " " + w2 + rest == name;
    InitialsAreWordStarts(name);
    WordThenRest(w1, tail, true);
    WordThenRest(w2, rest, true);
    var later := WordStarts(rest, false);
    assert tail[1..] == w2 + rest;
    assert WordStarts(tail, false) == WordStarts(w2 + rest, true);
    assert WordStarts(name, true) == [w1[0]] + ([w2[0]] + later);
    assert TakeTwo([w1[0]] + ([w2[0]] + later)) == [w1[0], w2[0]];
  }

  /** "alice bob carol" → "AB" */
  lemma AliceBobCarol()
    ensures Initials("alice bob carol") == "AB"
  {
    TwoWords("alice", "bob", " carol");
    assert "alice" + " " + "bob" + " carol" == "alice bob carol";
  }
}
