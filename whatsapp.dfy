/** The floating WhatsApp button (FloatingWhatsApp): the second phone number
    reduced to its digits (`replace(/\D/g, '')`), the button hidden when no
    digit remains, and the `wa.me` link with Brazil's country code. The footer
    and the home page reduce the same number the same way. */
module WhatsApp {
  import opened Wrappers
  import Slots

  /** `\d` without the Unicode flag: the ASCII digits only. */
  predicate IsDigit(c: char)
  {
    '0' <= c <= '9'
  }

  /** The number with every non-digit removed. */
  function DigitsOnly(phone: string): (r: string)
    ensures |r| <= |phone|
    ensures forall k :: 0 <= k < |r| ==> IsDigit(r[k])
    ensures r == "" <==> forall k :: 0 <= k < |phone| ==> !IsDigit(phone[k])
  {
    Slots.Filter(phone, IsDigit)
  }

  /** Digits are kept in their order: the digits of a concatenation are the
      digits of each part, and a single digit is kept as it is. */
  lemma DigitsKeepOrder(a: string, b: string, c: char)
    ensures DigitsOnly(a + b) == DigitsOnly(a) + DigitsOnly(b)
    ensures DigitsOnly([c]) == if IsDigit(c) then [c] else []
  {
    Slots.FilterAppend(a, b, IsDigit);
    assert [c][1..] == [];
  }

  /** Reducing an already reduced number changes nothing. */
  lemma DigitsOnlyIdempotent(phone: string)
    ensures DigitsOnly(DigitsOnly(phone)) == DigitsOnly(phone)
  {
    Slots.FilterIdempotent(phone, IsDigit);
  }

  const LinkPrefix := "https://wa.me/55"

  /** The button's link, or `None` when the component renders nothing. */
  function WhatsAppLink(phone2: string): (r: Option<string>)
    ensures r.None? <==> forall k :: 0 <= k < |phone2| ==> !IsDigit(phone2[k])
    ensures r.Some? ==> |r.value| > |LinkPrefix| && r.value[..|LinkPrefix|] == LinkPrefix
    ensures r.Some? ==> forall k :: |LinkPrefix| <= k < |r.value| ==> IsDigit(r.value[k])
    ensures r.Some? ==> r.value[|LinkPrefix|..] == DigitsOnly(phone2)
  {
    var digits := DigitsOnly(phone2);
    if digits == "" then None else Some(LinkPrefix + digits)
  }
}
