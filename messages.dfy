/** The emergency alert: the message text, the map link it embeds and the
    WhatsApp deep links it is sent through. */
module Messages {

  import opened Wrappers
  import opened Layers

  const PoliceNumber := "+919500420634"
  const AmbulanceNumber := "+917671952358"

  const MapsQueryPrefix := "https://maps.google.com/?q="
  const EmergencyHeader := "\U{1F6A8} EMERGENCY ALERT! \U{1F6A8}\nI need immediate assistance. My live location:\n"
  const WhatsAppPrefix := "https://wa.me/"
  const TextParameter := "?text="

  /** The map link for a position: `https://maps.google.com/?q=<lat>,<lon>`. */
  function MapsLink(c: Coord): string
  {
    MapsQueryPrefix + c.lat + "," + c.lon
  }

  /** The fixed emergency text, ending in the map link of the position. */
  function EmergencyMessage(c: Coord): string
  {
    EmergencyHeader + MapsLink(c)
  }

  /** Recovers the map link from an emergency text, if it is one. */
  function MapsLinkOf(msg: string): (r: Option<string>)
    ensures r.Some? ==> msg == EmergencyHeader + r.value
  {
    if |EmergencyHeader| <= |msg| && msg[..|EmergencyHeader|] == EmergencyHeader
    then Some(msg[|EmergencyHeader|..])
    else None
  }

  lemma MessageCarriesMapsLink(c: Coord)
    ensures MapsLinkOf(EmergencyMessage(c)) == Some(MapsLink(c))
  {
    var msg := EmergencyMessage(c);
    assert msg[..|EmergencyHeader|] == EmergencyHeader;
    assert msg[|EmergencyHeader|..] == MapsLink(c);
  }

  /** A WhatsApp deep link `https://wa.me/<number>?text=<text>`, where the
      caller passes the text already URI-encoded. */
  function WhatsAppLink(number: string, encodedText: string): string
  {
    WhatsAppPrefix + number + TextParameter + encodedText
  }

  /** The index of the first `c` in `s`, or `|s|` when there is none. */
  function IndexOf(s: string, c: char): (i: nat)
    ensures i <= |s|
    ensures forall j :: 0 <= j < i ==> s[j] != c
    ensures i < |s| ==> s[i] == c
  {
    if s == [] then 0
    else if s[0] == c then 0
    else 1 + IndexOf(s[1..], c)
  }

  /** Splits a WhatsApp deep link into its number and its (encoded) text:
      the number runs up to the first `?`, which must open `?text=`. */
  function ParseWhatsAppLink(link: string): (r: Option<(string, string)>)
    ensures r.Some? ==> link == WhatsAppLink(r.value.0, r.value.1) && '?' !in r.value.0
  {
    if |WhatsAppPrefix| <= |link| && link[..|WhatsAppPrefix|] == WhatsAppPrefix then
      var rest := link[|WhatsAppPrefix|..];
      var i := IndexOf(rest, '?');
      if i + |TextParameter| <= |rest| && rest[i..i + |TextParameter|] == TextParameter then
        assert link == WhatsAppPrefix + rest[..i] + TextParameter + rest[i + |TextParameter|..];
        Some((rest[..i], rest[i + |TextParameter|..]))
      else None
    else None
  }

  lemma {:induction false} ParseWhatsAppLinkInverts(number: string, encodedText: string)
    requires '?' !in number
    ensures ParseWhatsAppLink(WhatsAppLink(number, encodedText)) == Some((number, encodedText))
  {
    var link := WhatsAppLink(number, encodedText);
    var rest := link[|WhatsAppPrefix|..];
    assert link[..|WhatsAppPrefix|] == WhatsAppPrefix;
    assert rest == number + TextParameter + encodedText;
    assert rest[|number|] == '?';
    var i := IndexOf(rest, '?');
    assert i == |number|;
    assert rest[i..i + |TextParameter|] == TextParameter;
    assert rest[..i] == number;
    assert rest[i + |TextParameter|..] == encodedText;
  }

  /** The two links the alert opens, police first, both carrying the same
      encoded emergency text. `encode` stands for `encodeURIComponent`. */
  function SosLinks(c: Coord, encode: string -> string): (links: seq<string>)
    ensures |links| == 2
    ensures ParseWhatsAppLink(links[0]) == Some((PoliceNumber, encode(EmergencyMessage(c))))
    ensures ParseWhatsAppLink(links[1]) == Some((AmbulanceNumber, encode(EmergencyMessage(c))))
  {
    var text := encode(EmergencyMessage(c));
    ParseWhatsAppLinkInverts(PoliceNumber, text);
    ParseWhatsAppLinkInverts(AmbulanceNumber, text);
    [WhatsAppLink(PoliceNumber, text), WhatsAppLink(AmbulanceNumber, text)]
  }
}
