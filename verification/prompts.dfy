/**
 * The prompt catalogue as both page revisions use it: the prompt options,
 * the rotating edit suggestion, the "See More" slice and the lookup by id.
 */
module Prompts {
  import opened Common

  /** One entry of the prompt catalogue (`ImagePlaceholder`). */
  datatype PromptOption = PromptOption(
    id: string,
    description: string,
    imageUrl: string,
    referenceImageId: Option<string>)

  /** The placeholder texts that rotate in the edit box. */
  const EditSuggestions: seq<string> := [
    "make the lighting more dramatic",
    "change the background to a futuristic city",
    "give it a vintage film look",
    "add celebratory confetti",
    "make me look like an anime character",
    "put me in the cockpit of the car",
    "make the image brighter"
  ]

  /** How many prompts are shown before "See More" is pressed. */
  const CollapsedCount: nat := 4

  /** One tick of the 2.5-second suggestion interval: `(prev + 1) % editSuggestions.length`. */
  function NextSuggestion(i: nat): (r: nat)
    ensures r < |EditSuggestions|
    ensures i < |EditSuggestions| - 1 ==> r == i + 1
    ensures i == |EditSuggestions| - 1 ==> r == 0
  {
    (i + 1) % |EditSuggestions|
  }

  /** The suggestion index after `n` ticks of the interval, starting from `i`. */
  function SuggestionAfter(i: nat, n: nat): nat
  {
    if n == 0 then i else NextSuggestion(SuggestionAfter(i, n - 1))
  }

  /** After `n` ticks from index 0 the placeholder shows suggestion `n mod 7`: the rotation is a cycle. */
  lemma {:induction false} SuggestionCycles(n: nat)
    ensures SuggestionAfter(0, n) == n % |EditSuggestions|
  {
    if n > 0 {
      SuggestionCycles(n - 1);
    }
  }

  /** `showAllPrompts ? prompts : prompts.slice(0, 4)`; `slice` clamps to the length. */
  function Displayed(prompts: seq<PromptOption>, showAll: bool): (r: seq<PromptOption>)
    ensures r <= prompts
    ensures showAll ==> r == prompts
    ensures !showAll ==> |r| == if |prompts| < CollapsedCount then |prompts| else CollapsedCount
  {
    if showAll then prompts
    else if |prompts| < CollapsedCount then prompts
    else prompts[..CollapsedCount]
  }

  /** The "See More" button: `!showAllPrompts && prompts.length > 4`. */
  predicate SeeMoreOffered(prompts: seq<PromptOption>, showAll: bool)
  {
    !showAll && |prompts| > CollapsedCount
  }

  /** "See More" is offered exactly when some prompt is hidden by the slice. */
  lemma SeeMoreIffHidden(prompts: seq<PromptOption>, showAll: bool)
    ensures SeeMoreOffered(prompts, showAll) <==> Displayed(prompts, showAll) != prompts
  {
    if SeeMoreOffered(prompts, showAll) {
      assert |Displayed(prompts, showAll)| < |prompts|;
    }
  }

  /** `prompts.find(p => p.id === id)`: the first option with that id, or `undefined`. */
  function FindById(prompts: seq<PromptOption>, id: string): (r: Option<PromptOption>)
    ensures r.Some? ==> r.value in prompts && r.value.id == id
    ensures r.None? <==> forall p :: p in prompts ==> p.id != id
  {
    if prompts == [] then None
    else if prompts[0].id == id then Some(prompts[0])
    else FindById(prompts[1..], id)
  }

  /** The option found is the first one carrying the id. */
  lemma {:induction false} FindByIdIsFirst(prompts: seq<PromptOption>, id: string, k: nat)
    requires k < |prompts| && prompts[k].id == id
    requires forall j :: 0 <= j < k ==> prompts[j].id != id
    ensures FindById(prompts, id) == Some(prompts[k])
  {
    if k > 0 {
      FindByIdIsFirst(prompts[1..], id, k - 1);
    }
  }
}
