/** The hero section: the rotating role line and the typewriter that types
    the current role one character per interval tick. Interval callbacks
    are modelled as discrete `Tick` events; their period is left out. */
module Hero {
  import opened LanguageContext

  /** The three roles shown under the name. */
  function Roles(l: Language): (r: seq<string>)
    ensures |r| == 3
    ensures forall k :: 0 <= k < |r| ==> r[k] != ""
  {
    if l == Pl then ["Twórca Stron Internetowych", "Specjalista Strapi CMS", "Dostępny na Useme"]
    else ["Website Creator", "Strapi CMS Specialist", "Available on Useme"]
  }

  /** Both languages have the same number of roles, so switching language
      keeps the rotation (its interval depends only on that number) and the
      current index stays valid. */
  lemma RolesSameLength(l1: Language, l2: Language)
    ensures |Roles(l1)| == |Roles(l2)|
  {
  }

  /** The role index and the interval that advances it. `ticks` counts the
      interval callbacks so far. */
  class RoleRotator {
    var index: nat
    ghost var ticks: nat

    ghost predicate Valid()
      reads this
    {
      index == ticks % 3
    }

    constructor ()
      ensures Valid() && index == 0 && ticks == 0
    {
      index := 0;
      ticks := 0;
    }

    /** One interval callback: the index moves to the next role, wrapping
      after the last. */
    method Tick()
      requires Valid()
      modifies this
      ensures Valid()
      ensures ticks == old(ticks) + 1
      ensures index == (old(index) + 1) % 3
      ensures index < 3
    {
      index := (index + 1) % 3;
      ticks := ticks + 1;
    }

    /** The role on screen, in the current language. */
    function CurrentRole(l: Language): (r: string)
      requires Valid()
      reads this
      ensures r in Roles(l)
    {
      Roles(l)[index]
    }
  }

  function Min(a: nat, b: nat): nat {
    if a < b then a else b
  }

  /** `TypewriterText`: the text being typed, the part typed so far, the
      loop counter `i` and whether the interval still runs. `ticks` counts
      the interval callbacks since `text` was last set. */
  class Typewriter {
    var text: string
    var displayed: string
    var i: nat
    var running: bool
    ghost var ticks: nat

    /** After `ticks` callbacks exactly the first `min(ticks, |text|)`
      characters are on screen, and the interval is cleared on the first
      callback that finds the text complete. */
    ghost predicate Valid()
      reads this
    {
      && i <= |text|
      && displayed == text[..i]
      && i == Min(ticks, |text|)
      && (running <==> ticks <= |text|)
    }

    constructor (text: string)
      ensures Valid() && this.text == text
      ensures displayed == "" && i == 0 && running && ticks == 0
    {
      this.text := text;
      displayed := "";
      i := 0;
      running := true;
      ticks := 0;
    }

    /** A new text: the old interval is cleared, the screen emptied and a
      new interval started from the beginning. */
    method Reset(newText: string)
      modifies this
      ensures Valid() && text == newText
      ensures displayed == "" && i == 0 && running && ticks == 0
    {
      text := newText;
      displayed := "";
      i := 0;
      running := true;
      ticks := 0;
    }

    /** One interval callback: type the next character, or clear the
      interval when the text is complete. */
    method Tick()
      requires Valid() && running
      modifies this
      ensures Valid()
      ensures text == old(text) && ticks == old(ticks) + 1
      ensures old(i) < |text| ==> displayed == old(displayed) + [text[old(i)]] && running
      ensures old(i) == |text| ==> displayed == text && !running
    {
      if i < |text| {
        displayed := text[..i + 1];
        i := i + 1;
      } else {
        running := false;
      }
      ticks := ticks + 1;
    }
  }

  /** The hero with a rotating role typed by the typewriter: every role
      change hands the new role to the typewriter, which starts over. */
  method RotateRole(rotator: RoleRotator, writer: Typewriter, l: Language)
    requires rotator.Valid()
    modifies rotator, writer
    ensures rotator.Valid() && writer.Valid()
    ensures rotator.index == (old(rotator.index) + 1) % 3
    ensures writer.text == rotator.CurrentRole(l) && writer.displayed == ""
  {
    rotator.Tick();
    writer.Reset(Roles(l)[rotator.index]);
  }
}
