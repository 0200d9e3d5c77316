/** The accent colours of a daily-log card (components/DailyLogCard.tsx):
    the code of the id's last character, modulo the number of colours,
    picks both the border colour and the matching text colour. */
module DailyLogCard {
  import opened Types
  import opened Text

  const BorderColors: seq<string> :=
    ["border-l-cobalt", "border-l-vermilion", "border-l-ochre", "border-l-viridian", "border-l-violet"]

  const TextColors: seq<string> :=
    ["text-cobalt", "text-vermilion", "text-ochre", "text-viridian", "text-violet"]

  /** `id.charCodeAt(id.length - 1) % colors.length`: an index into the
      five colours for a non-empty id, from the last UTF-16 code unit; for
      the empty id the code is NaN and there is no index. */
  function ColorIndex(id: string, count: nat): (r: Option<nat>)
    requires count > 0
    ensures r.None? <==> id == []
    ensures r.Some? ==> r.value < count
    ensures r.Some? && !Astral(id[|id| - 1]) ==> r.value == (id[|id| - 1] as int) % count
    ensures r.Some? && Astral(id[|id| - 1]) ==> r.value == (0xDC00 + (id[|id| - 1] as int - 0x1_0000) % 0x400) % count
  {
    if id == [] then None else Some(LastCodeUnit(id[|id| - 1]) % count)
  }

  /** `getBorderColor`: no colour for the empty id. */
  function BorderColor(id: string): (c: Option<string>)
    ensures c.None? <==> id == []
    ensures c.Some? ==> c.value in BorderColors
    ensures id != [] ==> c == Some(BorderColors[LastCodeUnit(id[|id| - 1]) % 5])
  {
    match ColorIndex(id, |BorderColors|)
    case None => None
    case Some(k) => Some(BorderColors[k])
  }

  /** `getTextColor`: no colour for the empty id. */
  function TextColor(id: string): (c: Option<string>)
    ensures c.None? <==> id == []
    ensures c.Some? ==> c.value in TextColors
    ensures id != [] ==> c == Some(TextColors[LastCodeUnit(id[|id| - 1]) % 5])
  {
    match ColorIndex(id, |TextColors|)
    case None => None
    case Some(k) => Some(TextColors[k])
  }

  /** The border and the text of a card always take the same entry of
      their lists, so the two colours belong together. */
  lemma ColorsCorrespond(id: string)
    requires id != []
    ensures ColorIndex(id, 5).Some?
    ensures BorderColor(id) == Some(BorderColors[ColorIndex(id, 5).value])
    ensures TextColor(id) == Some(TextColors[ColorIndex(id, 5).value])
  {
  }

  /** Only the last character counts: two ids ending in the same character
      get the same colours. */
  lemma SameLastCharSameColors(a: string, b: string)
    requires a != [] && b != [] && a[|a| - 1] == b[|b| - 1]
    ensures BorderColor(a) == BorderColor(b) && TextColor(a) == TextColor(b)
  {
  }

  /** The two seeded logs, `log-1` and `log-2`, get the violet and the
      cobalt accent. */
  lemma SeedLogColors()
    ensures BorderColor("log-1") == Some("border-l-violet") && TextColor("log-1") == Some("text-violet")
    ensures BorderColor("log-2") == Some("border-l-cobalt") && TextColor("log-2") == Some("text-cobalt")
  {
    var one, two := "log-1", "log-2";
    assert one[|one| - 1] == '1' && ('1' as int) % 5 == 4;
    assert two[|two| - 1] == '2' && ('2' as int) % 5 == 0;
  }
}
