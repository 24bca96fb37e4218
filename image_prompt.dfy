/** The text prompt sent to the image generator, built from the cake
    choices: a fixed preamble, the parts the choices supply, a fixed suffix. */
module ImageGeneration {
  import opened Common

  datatype PromptChoices = PromptChoices(
    theme: Option<string>,
    base: Option<string>,
    shape: Option<string>,
    flavor: Option<string>,
    decorations: Option<seq<string>>,
    colors: Option<seq<string>>,
    message: Option<string>)

  const NoPromptChoices := PromptChoices(None, None, None, None, None, None, None)

  const Preamble := "A beautiful birthday cake, professional bakery photo, white background, studio lighting"
  const Suffix := "kid-friendly, colorful, whimsical, cartoon style, 3D render"
  const Separator := ", "

  /** A list contributes a part only when it is present and non-empty. */
  predicate NonEmpty(l: Option<seq<string>>) {
    l.Some? && |l.value| > 0
  }

  function ThemePart(c: PromptChoices): seq<string> {
    if Truthy(c.theme) then [c.theme.value + " themed"] else []
  }

  function BasePart(c: PromptChoices): seq<string> {
    if Truthy(c.base) then [c.base.value + " shaped"] else []
  }

  function FlavorPart(c: PromptChoices): seq<string> {
    if Truthy(c.flavor) then [c.flavor.value + " flavored"] else []
  }

  function ColorsPart(c: PromptChoices): seq<string> {
    if NonEmpty(c.colors) then ["with " + Join(c.colors.value, " and ") + " colors"] else []
  }

  function DecorationsPart(c: PromptChoices): seq<string> {
    if NonEmpty(c.decorations) then ["decorated with " + Join(c.decorations.value, ", ")] else []
  }

  function MessagePart(c: PromptChoices): seq<string> {
    if Truthy(c.message) then ["with \"" + c.message.value + "\" written on it"] else []
  }

  /** The optional parts, in the order theme, base, flavour, colours,
      decorations, message; the shape is never used. */
  function OptionalParts(c: PromptChoices): (parts: seq<string>)
    ensures |parts| <= 6
    ensures parts == [] <==> !Truthy(c.theme) && !Truthy(c.base) && !Truthy(c.flavor)
                             && !NonEmpty(c.colors) && !NonEmpty(c.decorations) && !Truthy(c.message)
  {
    ThemePart(c) + BasePart(c) + FlavorPart(c) + ColorsPart(c) + DecorationsPart(c) + MessagePart(c)
  }

  function BuildCakePrompt(c: PromptChoices): (r: string)
    ensures r == Preamble + Separator + Terminated(OptionalParts(c), Separator) + Suffix
  {
    JoinFramed(Preamble, OptionalParts(c), Suffix, Separator);
    Join([Preamble] + OptionalParts(c) + [Suffix], Separator)
  }

  /** The prompt is the preamble, each optional part followed by the
      separator, and the suffix: so it always opens with the preamble and
      closes with the suffix. */
  lemma PromptFramed(c: PromptChoices)
    ensures |Preamble + Separator| <= |BuildCakePrompt(c)|
    ensures BuildCakePrompt(c)[..|Preamble + Separator|] == Preamble + Separator
    ensures BuildCakePrompt(c)[|BuildCakePrompt(c)| - |Suffix|..] == Suffix
  {
    var mid := Terminated(OptionalParts(c), Separator);
    EndsOf(Preamble + Separator, mid, Suffix);
  }

  lemma EndsOf(head: string, mid: string, tail: string)
    ensures (head + mid + tail)[..|head|] == head
    ensures (head + mid + tail)[|head + mid + tail| - |tail|..] == tail
  {
  }

  /** With no choices the prompt is the preamble, the separator and the suffix. */
  lemma PromptWithoutChoices(c: PromptChoices)
    requires !Truthy(c.theme) && !Truthy(c.base) && !Truthy(c.flavor)
    requires !NonEmpty(c.colors) && !NonEmpty(c.decorations) && !Truthy(c.message)
    ensures BuildCakePrompt(c) == Preamble + Separator + Suffix
  {
    PromptFramed(c);
  }

  /** The shape has no effect on the prompt. */
  lemma PromptIgnoresShape(c: PromptChoices, shape: Option<string>)
    ensures BuildCakePrompt(c.(shape := shape)) == BuildCakePrompt(c)
  {
    assert OptionalParts(c.(shape := shape)) == OptionalParts(c);
  }

  /** A theme alone adds exactly one part, placed right after the preamble. */
  lemma PromptWithThemeOnly(theme: string)
    requires theme != ""
    ensures BuildCakePrompt(NoPromptChoices.(theme := Some(theme)))
            == Preamble + Separator + theme + " themed" + Separator + Suffix
  {
    var c := NoPromptChoices.(theme := Some(theme));
    var part := theme + " themed";
    assert OptionalParts(c) == [part];
    var mid := Terminated([part], Separator);
    assert mid == part + Separator by {
      assert [part][1..] == [];
      assert Terminated([part][1..], Separator) == "";
      assert mid == part + Separator + "";
    }
    assert BuildCakePrompt(c) == Preamble + Separator + mid + Suffix;
  }

  /** Two colours alone give one part, "with <a> and <b> colors", right
      after the preamble. */
  lemma PromptWithTwoColors(a: string, b: string)
    ensures BuildCakePrompt(NoPromptChoices.(colors := Some([a, b])))
            == Preamble + Separator + ("with " + (a + " and " + b) + " colors") + Separator + Suffix
  {
    var c := NoPromptChoices.(colors := Some([a, b]));
    var joined := a + " and " + b;
    assert Join([a, b], " and ") == joined by {
      assert [a, b][..1] == [a];
    }
    var part := "with " + joined + " colors";
    assert ColorsPart(c) == [part];
    assert OptionalParts(c) == [part];
    var mid := Terminated([part], Separator);
    assert mid == part + Separator by {
      assert [part][1..] == [];
      assert Terminated([part][1..], Separator) == "";
      assert mid == part + Separator + "";
    }
    assert BuildCakePrompt(c) == Preamble + Separator + mid + Suffix;
  }
}
