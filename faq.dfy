/** The single-open accordion of frontend/components/Faq.tsx. */
module Faq {
  import opened Wrappers

  /** The open entry after toggling `index` (Faq.tsx:39-45). */
  function Toggled(open: Option<nat>, index: nat): (r: Option<nat>)
    ensures open == Some(index) ==> r.None?
    ensures open != Some(index) ==> r == Some(index)
  {
    if open == Some(index) then None else Some(index)
  }

  /** Toggling the same entry twice restores an open entry and otherwise
      leaves everything closed, whatever was open before. */
  lemma ToggleTwice(open: Option<nat>, index: nat)
    ensures Toggled(Toggled(open, index), index) == if open == Some(index) then open else None
  {
  }

  /** After a toggle the only entry that can be open is the one toggled. */
  lemma ToggleOpensOnlyIndex(open: Option<nat>, index: nat, other: nat)
    requires other != index
    ensures Toggled(open, index) != Some(other)
  {
  }

  class FaqAccordion {
    /** openFaq: the index of the open entry, if any. */
    var openFaq: Option<nat>

    /** Initially no entry is open (Faq.tsx:38). */
    constructor ()
      ensures openFaq.None?
    {
      openFaq := None;
    }

    /** toggleFAQ (Faq.tsx:39-45). */
    method ToggleFaq(index: nat)
      modifies this
      ensures openFaq == Toggled(old(openFaq), index)
      ensures old(openFaq) == Some(index) ==> openFaq.None?
      ensures old(openFaq) != Some(index) ==> openFaq == Some(index)
    {
      if openFaq == Some(index) {
        openFaq := None;
      } else {
        openFaq := Some(index);
      }
    }
  }
}
