/** The places a geodata search returns, and what the widget makes of each:
    its label, its map marker and its entry in the selection prompt. */
module Places {

  import opened Wrappers
  import opened Layers

  /** The two searches the page offers, with the glyph shown beside each. */
  const HospitalAmenity := "hospital"
  const HospitalEmoji := "\U{1F3E5}"
  const PoliceAmenity := "police"
  const PoliceEmoji := "\U{1F694}"

  datatype Tags = Tags(name: Option<string>)

  /** One node of a search reply: its position and its tags, which a reply
      need not carry. */
  datatype Element = Element(at: Coord, tags: Option<Tags>)

  /** One `<option value="lat,lon">label</option>` of the selection prompt. */
  datatype PlaceOption = PlaceOption(value: Coord, text: string)

  /** `toUpperCase` on one character, for the ASCII letters. */
  function UpperAscii(ch: char): char
  {
    if 'a' <= ch <= 'z' then (ch as int - 32) as char else ch
  }

  /** `t.charAt(0).toUpperCase() + t.slice(1)`. */
  function Capitalize(t: string): (r: string)
    ensures |r| == |t|
    ensures forall i :: 1 <= i < |t| ==> r[i] == t[i]
    ensures |t| > 0 ==> r[0] == UpperAscii(t[0]) && !('a' <= r[0] <= 'z')
  {
    if t == [] then t else [UpperAscii(t[0])] + t[1..]
  }

  lemma CapitalizeIdempotent(t: string)
    ensures Capitalize(Capitalize(t)) == Capitalize(t)
  {
  }

  /** The generated label of a place without a name: glyph, space, the
      amenity type with its first letter capitalised. */
  function FallbackLabel(emoji: string, amenity: string): string
  {
    emoji + " " + Capitalize(amenity)
  }

  lemma FallbackLabelsOfSearches()
    ensures FallbackLabel(HospitalEmoji, HospitalAmenity) == "\U{1F3E5} Hospital"
    ensures FallbackLabel(PoliceEmoji, PoliceAmenity) == "\U{1F694} Police"
  {
    assert Capitalize(HospitalAmenity) == "Hospital";
    assert Capitalize(PoliceAmenity) == "Police";
  }

  /** `tags.name || fallback`: JavaScript's `||` falls back on a missing
      name and on an empty one alike. */
  function Label(tags: Tags, emoji: string, amenity: string): (r: string)
    ensures r != ""
    ensures tags.name == Some(r) <==> tags.name.Some? && tags.name.value != ""
    ensures tags.name != Some(r) ==> r == FallbackLabel(emoji, amenity)
  {
    if tags.name.Some? && tags.name.value != "" then tags.name.value
    else FallbackLabel(emoji, amenity)
  }

  /** The popup bound to a place marker: glyph, space, label. */
  function Popup(emoji: string, name: string): string
  {
    emoji + " " + name
  }

  function MarkerFor(e: Element, emoji: string, amenity: string, stamp: nat): Layer
    requires e.tags.Some?
  {
    Layer(stamp, PlaceMarker(e.at, Popup(emoji, Label(e.tags.value, emoji, amenity))))
  }

  function OptionFor(e: Element, emoji: string, amenity: string): PlaceOption
    requires e.tags.Some?
  {
    PlaceOption(e.at, Label(e.tags.value, emoji, amenity))
  }

  ghost predicate AllTagged(els: seq<Element>)
  {
    forall i :: 0 <= i < |els| ==> els[i].tags.Some?
  }

  /** The markers the search handler pushes, one per element in element
      order, when Leaflet's stamp counter stands at `stamp`. */
  function PlaceMarkers(els: seq<Element>, emoji: string, amenity: string, stamp: nat): (ms: seq<Layer>)
    requires AllTagged(els)
    ensures |ms| == |els|
    decreases |els|
  {
    if els == [] then []
    else
      var n := |els| - 1;
      PlaceMarkers(els[..n], emoji, amenity, stamp) + [MarkerFor(els[n], emoji, amenity, stamp + n)]
  }

  /** The entries the search handler appends to the selection prompt, one
      per element in element order. */
  function PlaceOptions(els: seq<Element>, emoji: string, amenity: string): (os: seq<PlaceOption>)
    requires AllTagged(els)
    ensures |os| == |els|
    decreases |els|
  {
    if els == [] then []
    else
      var n := |els| - 1;
      PlaceOptions(els[..n], emoji, amenity) + [OptionFor(els[n], emoji, amenity)]
  }

  /** Marking one more element appends its marker and its option. */
  lemma Extend(els: seq<Element>, i: nat, emoji: string, amenity: string, stamp: nat)
    requires i < |els| && AllTagged(els[..i + 1])
    ensures AllTagged(els[..i])
    ensures PlaceMarkers(els[..i + 1], emoji, amenity, stamp)
         == PlaceMarkers(els[..i], emoji, amenity, stamp) + [MarkerFor(els[i], emoji, amenity, stamp + i)]
    ensures PlaceOptions(els[..i + 1], emoji, amenity)
         == PlaceOptions(els[..i], emoji, amenity) + [OptionFor(els[i], emoji, amenity)]
  {
    assert els[..i + 1][..i] == els[..i];
  }

  /** The index of the first element without tags, where reading
      `element.tags.name` throws; `|els|` when every element has tags. */
  function FirstUntagged(els: seq<Element>): (k: nat)
    ensures k <= |els|
    ensures AllTagged(els[..k])
    ensures k < |els| ==> els[k].tags.None?
  {
    if els == [] then 0
    else if els[0].tags.None? then 0
    else
      var k := 1 + FirstUntagged(els[1..]);
      assert els[..k] == [els[0]] + els[1..][..k - 1];
      k
  }

  /** The `i`-th marker is the `i`-th element's, stamped `stamp + i`. */
  lemma {:induction false} PlaceMarkerAt(els: seq<Element>, emoji: string, amenity: string, stamp: nat, i: nat)
    requires AllTagged(els) && i < |els|
    ensures PlaceMarkers(els, emoji, amenity, stamp)[i] == MarkerFor(els[i], emoji, amenity, stamp + i)
    decreases |els|
  {
    var n := |els| - 1;
    if i < n {
      assert els[..n][i] == els[i];
      PlaceMarkerAt(els[..n], emoji, amenity, stamp, i);
    }
  }

  /** The `i`-th option is the `i`-th element's. */
  lemma {:induction false} PlaceOptionAt(els: seq<Element>, emoji: string, amenity: string, i: nat)
    requires AllTagged(els) && i < |els|
    ensures PlaceOptions(els, emoji, amenity)[i] == OptionFor(els[i], emoji, amenity)
    decreases |els|
  {
    var n := |els| - 1;
    if i < n {
      assert els[..n][i] == els[i];
      PlaceOptionAt(els[..n], emoji, amenity, i);
    }
  }

  /** The markers stand at their elements' positions, in element order,
      under consecutive fresh stamps; the option list names the same
      positions under the same labels. */
  lemma MarkersMatchElements(els: seq<Element>, emoji: string, amenity: string, stamp: nat)
    requires AllTagged(els)
    ensures var ms := PlaceMarkers(els, emoji, amenity, stamp);
            forall i :: 0 <= i < |els| ==>
              ms[i].stamp == stamp + i && ms[i].kind.PlaceMarker? && ms[i].kind.at == els[i].at
    ensures var ms, os := PlaceMarkers(els, emoji, amenity, stamp), PlaceOptions(els, emoji, amenity);
            forall i :: 0 <= i < |els| ==>
              os[i].value == els[i].at && ms[i].kind.popup == Popup(emoji, os[i].text)
  {
    var ms, os := PlaceMarkers(els, emoji, amenity, stamp), PlaceOptions(els, emoji, amenity);
    forall i | 0 <= i < |els|
      ensures ms[i] == MarkerFor(els[i], emoji, amenity, stamp + i)
      ensures os[i] == OptionFor(els[i], emoji, amenity)
    {
      PlaceMarkerAt(els, emoji, amenity, stamp, i);
      PlaceOptionAt(els, emoji, amenity, i);
    }
  }
}
