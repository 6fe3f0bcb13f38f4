/** `send_event`: the alert gate and the webhook payload. The HTTP POST
    itself and its swallowed failures are outside the model; what remains
    is whether a payload goes out, and which. */
module Notifier {
  import opened Wrappers
  import opened Decimal
  import opened Detection

  const PersonsLabel: string := "persons="
  const PhonesLabel: string := ", phones="

  /** Recovers the counts from a `question` text. None unless the text is
      `persons=<N>, phones=<M>` with both numbers spelt canonically. */
  function ParsePayload(q: string): (r: Option<Counts>)
  {
    if |q| < |PersonsLabel| || q[..|PersonsLabel|] != PersonsLabel then None
    else
      var rest := q[|PersonsLabel|..];
      var k := LeadingDigits(rest);
      var tail := rest[k..];
      if !Canonical(rest[..k]) || |tail| < |PhonesLabel| || tail[..|PhonesLabel|] != PhonesLabel then None
      else
        var last := tail[|PhonesLabel|..];
        if !Canonical(last) then None
        else Some(Counts(DigitsValue(rest[..k]), DigitsValue(last)))
  }

  /** The text `persons=<a>, phones=<b>` for two canonical spellings parses
      to the numbers they spell. */
  lemma ParseOfParts(a: string, b: string)
    requires Canonical(a) && Canonical(b)
    ensures ParsePayload(PersonsLabel + a + PhonesLabel + b) == Some(Counts(DigitsValue(a), DigitsValue(b)))
  {
    var q := PersonsLabel + a + PhonesLabel + b;
    assert q == PersonsLabel + (a + (PhonesLabel + b));
    assert q[..|PersonsLabel|] == PersonsLabel;
    var rest := q[|PersonsLabel|..];
    assert rest == a + (PhonesLabel + b);
    LeadingDigitsOfConcat(a, PhonesLabel + b);
    assert rest[..|a|] == a;
    var tail := rest[|a|..];
    assert tail == PhonesLabel + b;
    assert tail[..|PhonesLabel|] == PhonesLabel;
    assert tail[|PhonesLabel|..] == b;
  }

  /** The `question` text of the webhook body: it starts with "persons=" and
      is a text the parser maps back to exactly these counts. */
  function Payload(c: Counts): (q: string)
    ensures |q| > |PersonsLabel| && q[..|PersonsLabel|] == PersonsLabel
    ensures ParsePayload(q) == Some(c)
  {
    var a := NatToString(c.persons);
    var b := NatToString(c.phones);
    ParseOfParts(a, b);
    NatToStringRoundTrip(c.persons);
    NatToStringRoundTrip(c.phones);
    PersonsLabel + a + PhonesLabel + b
  }

  /** A text that parses to some counts is the payload built from them. */
  lemma {:induction false} ParsedIsPayload(q: string, c: Counts)
    requires ParsePayload(q) == Some(c)
    ensures q == Payload(c)
  {
    var rest := q[|PersonsLabel|..];
    var k := LeadingDigits(rest);
    var a := rest[..k];
    var tail := rest[k..];
    var b := tail[|PhonesLabel|..];
    assert c.persons == DigitsValue(a) && c.phones == DigitsValue(b);
    CanonicalRoundTrip(a);
    CanonicalRoundTrip(b);
    assert tail == PhonesLabel + b;
    assert rest == a + tail;
    assert q == PersonsLabel + rest;
    assert q == PersonsLabel + a + PhonesLabel + b;
  }

  /** Parsing and Payload are inverse to each other: the only text that
      parses to some counts is the payload built from them. */
  lemma ParsePayloadInverse(q: string, c: Counts)
    ensures ParsePayload(q) == Some(c) <==> q == Payload(c)
  {
    if ParsePayload(q) == Some(c) {
      ParsedIsPayload(q, c);
    }
  }

  /** Distinct counts give distinct payloads. */
  lemma PayloadInjective(c: Counts, d: Counts)
    requires Payload(c) == Payload(d)
    ensures c == d
  {
  }

  /** `send_event(persons, phones)`: with alerts off nothing is sent;
      otherwise exactly the payload for these counts. */
  function SendEvent(alerts: bool, c: Counts): (sent: Option<string>)
    ensures sent.Some? <==> alerts
    ensures sent.Some? ==> sent.value == Payload(c)
    ensures sent.Some? ==> ParsePayload(sent.value) == Some(c)
  {
    if !alerts then None else Some(Payload(c))
  }
}
