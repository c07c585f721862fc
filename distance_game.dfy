/**
 * The picture prompt of the viewing-distance game: the "next image" button
 * steps through a fixed list of six pictures, wrapping around.
 */
module DistanceGame {

  /** The prompts of gameImages, in order (their emoji are presentation). */
  const GameImageNames: seq<string> := ["an apple", "a star", "a cat", "a car", "a sun", "a house"]

  /** The index of the following picture, wrapping from the last back to the first. */
  function NextImageIndex(i: nat): (r: nat)
    ensures r < |GameImageNames|
    ensures i + 1 < |GameImageNames| ==> r == i + 1
    ensures i + 1 == |GameImageNames| ==> r == 0
  {
    (i + 1) % |GameImageNames|
  }

  /** The index after a number of clicks. */
  function AdvancedBy(i: nat, clicks: nat): nat {
    if clicks == 0 then i else NextImageIndex(AdvancedBy(i, clicks - 1))
  }

  /** Clicking n times moves n places round the list. */
  lemma {:induction false} AdvancedByIsModular(i: nat, clicks: nat)
    requires i < |GameImageNames|
    ensures AdvancedBy(i, clicks) == (i + clicks) % |GameImageNames|
  {
    if clicks > 0 {
      AdvancedByIsModular(i, clicks - 1);
    }
  }

  /** Six clicks show the same picture again, and no fewer do. */
  lemma FullCycle(i: nat, clicks: nat)
    requires i < |GameImageNames|
    requires 0 < clicks <= |GameImageNames|
    ensures AdvancedBy(i, clicks) == i <==> clicks == |GameImageNames|
  {
    AdvancedByIsModular(i, clicks);
  }
}
