/** The typewriter effect of the about page: a timer-driven step that copies
    the bio into the output span one character at a time, writing each line
    break as a `<br>` tag. */
module Typewriter {

  /** The bio the about page types out. */
  const BioText := "Howdie!, My name is Kenneth or Ken, and I use the 'KD' as my nickname across the digital space presenting 'Ken's Designs'. I am a passionate Web Developer & Designer.\n\nAs I love joining IT organizations and collaborative activities to continuously learn, boost my knowledge, and connect with bunch of people. As I am always curious when it comes to new IT stuffs, coding, and still wanting to push my creative boundaries in the IT world."

  const LineBreak := "<br>"

  /** What one character of the bio adds to the output's markup. */
  function RenderChar(c: char): string
  {
    if c == '\n' then LineBreak else [c]
  }

  function NewlineCount(s: string): nat
  {
    if s == [] then 0 else (if s[0] == '\n' then 1 else 0) + NewlineCount(s[1..])
  }

  /** The markup of a stretch of bio text: no raw line break survives, and
      each one costs three extra characters. */
  function Render(s: string): (r: string)
    ensures |r| == |s| + 3 * NewlineCount(s)
    ensures '\n' !in r
  {
    if s == [] then "" else RenderChar(s[0]) + Render(s[1..])
  }

  /** Rendering one more character appends that character's markup. */
  lemma {:induction false} RenderAppend(s: string, c: char)
    ensures Render(s + [c]) == Render(s) + RenderChar(c)
  {
    if s == [] {
      assert [c][1..] == [];
    } else {
      assert (s + [c])[1..] == s[1..] + [c];
      RenderAppend(s[1..], c);
    }
  }

  /** Rendering distributes over concatenation, so the markup of a shorter
      prefix of the bio is a prefix of the markup of a longer one. */
  lemma {:induction false} RenderConcat(s: string, t: string)
    ensures Render(s + t) == Render(s) + Render(t)
  {
    if s == [] {
      assert s + t == t;
    } else {
      assert (s + t)[1..] == s[1..] + t;
      RenderConcat(s[1..], t);
    }
  }

  lemma RenderPrefix(bio: string, j: nat, k: nat)
    requires j <= k <= |bio|
    ensures Render(bio[..j]) <= Render(bio[..k])
  {
    assert bio[..k] == bio[..j] + bio[j..k];
    RenderConcat(bio[..j], bio[j..k]);
  }

  /** A bio without line breaks is typed out verbatim. */
  lemma {:induction false} RenderPlain(s: string)
    requires '\n' !in s
    ensures Render(s) == s
  {
    if s != [] {
      assert s[0] in s;
      RenderPlain(s[1..]);
    }
  }

  /** The output span and the index of the next character to type.
      `output` is the markup the steps have appended: the typed text with
      `<br>` for each line break. It is what the span displays, not what its
      `innerHTML` reads back, which writes a typed `&` as `&amp;`. */
  class Typewriter {
    const bio: string
    var charIndex: nat
    var output: string

    ghost predicate Valid()
      reads this
    {
      charIndex <= |bio| && output == Render(bio[..charIndex])
    }

    /** The container is found and given an empty output span; the text to
        type is the about page's bio. */
    constructor ()
      ensures bio == BioText && Valid()
      ensures charIndex == 0 && output == ""
    {
      bio := BioText;
      charIndex := 0;
      output := "";
    }

    /** One run of `typeWriter`: type the next character if any is left and
        say whether the next run was scheduled. */
    method Step() returns (rescheduled: bool)
      requires Valid()
      modifies this
      ensures Valid()
      ensures rescheduled <==> old(charIndex) < |bio|
      ensures charIndex == if rescheduled then old(charIndex) + 1 else old(charIndex)
      ensures !rescheduled ==> output == old(output)
      ensures rescheduled ==> output == old(output) + RenderChar(bio[old(charIndex)])
    {
      rescheduled := false;
      if charIndex < |bio| {
        RenderAppend(bio[..charIndex], bio[charIndex]);
        assert bio[..charIndex + 1] == bio[..charIndex] + [bio[charIndex]];
        if bio[charIndex] == '\n' {
          output := output + LineBreak;
        } else {
          output := output + [bio[charIndex]];
        }
        charIndex := charIndex + 1;
        rescheduled := true;
      }
    }
  }
}
