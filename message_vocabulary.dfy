/** The message types and the template each one is written with. */
module MessageVocabulary {
  import opened Wrappers

  datatype Priority = Normal | Warning | Critical

  function PriorityName(p: Priority): string {
    match p
    case Normal => "normal"
    case Warning => "warning"
    case Critical => "critical"
  }

  /** A template's optional visibility filters; an absent list does not filter. */
  datatype Filters = Filters(submarines: Option<seq<string>>, roles: Option<seq<string>>)

  datatype MessageTemplate = MessageTemplate(template: string, priority: Priority, filters: Option<Filters>)

  const Movement := "MOVEMENT"
  const Damage := "DAMAGE"
  const Torpedo := "TORPEDO"
  const Sonar := "SONAR"
  const Systems := "SYSTEMS"
  const GameEvents := "GAME_EVENTS"
  const Combat := "COMBAT"
  const Status := "STATUS"

  /** MESSAGE_TYPES, in declaration order. */
  const MessageTypes: seq<string> := [Movement, Damage, Torpedo, Sonar, Systems, GameEvents, Combat, Status]

  /** MESSAGE_VOCABULARY as (type, template) entries in declaration order. */
  const Vocabulary: seq<(string, MessageTemplate)> := [
    (Movement, MessageTemplate("{submarine} moved {direction}", Normal, None)),
    (Damage, MessageTemplate("{submarine} took {damage} damage from {source}", Warning, None)),
    (Torpedo, MessageTemplate("{submarine} fired a torpedo at {target}", Critical, Some(Filters(None, None)))),
    (Sonar, MessageTemplate("Sonar detected {submarine} at sector {sector}", Normal, None)),
    (Systems, MessageTemplate("{submarine} systems: {system} {status}", Warning, None)),
    (GameEvents, MessageTemplate("Game: {event}", Normal, None)),
    (Combat, MessageTemplate("{submarine} engaged in combat with {target}", Critical, None)),
    (Status, MessageTemplate("{submarine} status: {status}", Normal, None))
  ]

  function Lookup(entries: seq<(string, MessageTemplate)>, t: string): (r: Option<MessageTemplate>)
    ensures r.Some? ==> (t, r.value) in entries
    ensures r.None? <==> forall i :: 0 <= i < |entries| ==> entries[i].0 != t
  {
    if entries == [] then None
    else if entries[0].0 == t then Some(entries[0].1)
    else Lookup(entries[1..], t)
  }

  /** getMessageTemplate: the vocabulary entry of a known type, null otherwise. */
  function GetMessageTemplate(t: string): (r: Option<MessageTemplate>)
    ensures r.Some? <==> t in MessageTypes
    ensures r.Some? ==> (t, r.value) in Vocabulary
  {
    assert forall i :: 0 <= i < |Vocabulary| ==> Vocabulary[i].0 == MessageTypes[i];
    Lookup(Vocabulary, t)
  }

  /** getMessageTypes: the vocabulary's keys in order. */
  function GetMessageTypes(): (r: seq<string>)
    ensures |r| == |Vocabulary|
    ensures forall i :: 0 <= i < |r| ==> r[i] == Vocabulary[i].0
  {
    seq(|Vocabulary|, i requires 0 <= i < |Vocabulary| => Vocabulary[i].0)
  }

  /** There are exactly eight types, all distinct, each with a template, and the vocabulary has no other key. */
  lemma {:induction false} VocabularyMatchesTypes()
    ensures |MessageTypes| == 8 && NoDup(MessageTypes)
    ensures GetMessageTypes() == MessageTypes
    ensures forall i :: 0 <= i < |MessageTypes| ==> GetMessageTemplate(MessageTypes[i]).Some?
  {
    assert GetMessageTypes() == MessageTypes;
  }
}
