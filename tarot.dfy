/** The archetype card draw: a closed set of eight cards, the session-scoped
    name of the last card drawn, and the restore of that card on page load. */
module Tarot {
  import opened Wrappers

  datatype Card = Card(name: string, desc: string)

  /** The eight cards, in the order the source lists them. */
  const Archetypes: seq<Card> := [
    Card("The Shadow", "The repressed, unacknowledged aspects of the self. What are you hiding from?"),
    Card("The Anima/Animus", "The contrasexual inner personality. The bridge to the unconscious."),
    Card("The Wise Old Man", "The guiding principle of wisdom, meaning, and spirit."),
    Card("The Great Mother", "The nurturing, fertile, but potentially devouring maternal instinct."),
    Card("The Puer Aeternus", "The eternal child. Resistance to boundaries and growing up."),
    Card("The Trickster", "The disruption of order. Pointing out the absurdity of the ego."),
    Card("The Persona", "The social mask. How much of your suffering is just maintaining the image?"),
    Card("The Hero", "The ego's struggle to overcome the dragon of the unconscious.")
  ]

  /** `cards.find(a => a.name === name)`: the first card with that name. */
  function Find(cards: seq<Card>, name: string): (r: Option<Card>)
    ensures r.Some? ==> r.value in cards && r.value.name == name
    ensures r.None? <==> forall k :: 0 <= k < |cards| ==> cards[k].name != name
    ensures r.Some? ==>
      exists k :: 0 <= k < |cards| && cards[k] == r.value && (forall j :: 0 <= j < k ==> cards[j].name != name)
  {
    if cards == [] then None
    else if cards[0].name == name then Some(cards[0])
    else Find(cards[1..], name)
  }

  /** `loadTarot`: a saved name (null or empty counts as none) restores the
      card of that name, and a name outside the eight restores nothing. */
  function Restore(saved: Option<string>): (r: Option<Card>)
    ensures r.Some? <==> saved.Some? && exists k :: 0 <= k < |Archetypes| && Archetypes[k].name == saved.value
    ensures r.Some? ==> r.value in Archetypes && r.value.name == saved.value
  {
    if saved.None? || saved.value == [] then None else Find(Archetypes, saved.value)
  }

  predicate DistinctNames(cards: seq<Card>) {
    forall i, j :: 0 <= i < j < |cards| ==> cards[i].name != cards[j].name
  }

  /** When names are distinct, looking up a card's name finds that card. */
  lemma {:induction false} FindOwnName(cards: seq<Card>, k: nat)
    requires DistinctNames(cards) && k < |cards|
    ensures Find(cards, cards[k].name) == Some(cards[k])
  {
    if k > 0 {
      assert cards[0].name != cards[k].name;
      assert cards[1..][k - 1] == cards[k];
      FindOwnName(cards[1..], k - 1);
    }
  }

  lemma ArchetypeNamesDistinct()
    ensures DistinctNames(Archetypes)
  {
  }

  /** A drawn card's name, saved and restored, gives back that same card. */
  lemma RestoreDrawn(k: nat)
    requires k < |Archetypes|
    ensures Restore(Some(Archetypes[k].name)) == Some(Archetypes[k])
  {
    ArchetypeNamesDistinct();
    FindOwnName(Archetypes, k);
  }

  /** The per-tab session scratch store: `current_archetype`. */
  class SessionScratch {
    var currentArchetype: Option<string>

    constructor ()
      ensures currentArchetype == None
    {
      currentArchetype := None;
    }

    /** The `draw-card` click handler; `index` is the random draw
        `Math.floor(Math.random() * 8)`, always below eight. */
    method Draw(index: nat) returns (card: Card)
      requires index < |Archetypes|
      modifies this
      ensures card == Archetypes[index]
      ensures currentArchetype == Some(card.name)
      ensures Restore(currentArchetype) == Some(card)
    {
      card := Archetypes[index];
      currentArchetype := Some(card.name);
      RestoreDrawn(index);
    }
  }
}
