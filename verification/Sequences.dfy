/** Laws of sequences that the modules share. */
module Sequences {
  lemma {:induction false} Associative<T>(a: seq<T>, b: seq<T>, c: seq<T>)
    ensures (a + b) + c == a + (b + c)
  {
  }

  /** `ks` are the places of the elements that are kept, in order. */
  ghost predicate Picks<T>(ks: seq<nat>, s: seq<T>, keep: T -> bool) {
    && (forall i, j | 0 <= i < j < |ks| :: ks[i] < ks[j])
    && (forall i | 0 <= i < |ks| :: ks[i] < |s| && keep(s[ks[i]]))
    && (forall k: nat | k < |s| && keep(s[k]) :: k in ks)
  }

  lemma {:induction false} PicksGrow<T>(ks: seq<nat>, s: seq<T>, x: T, keep: T -> bool)
    requires Picks(ks, s, keep)
    ensures Picks(if keep(x) then ks + [|s|] else ks, s + [x], keep)
  {
    var all, ks' := s + [x], if keep(x) then ks + [|s|] else ks;
    forall i | 0 <= i < |ks'| ensures ks'[i] < |all| && keep(all[ks'[i]]) {
      assert i < |ks| ==> keep(s[ks[i]]);
    }
    forall k: nat | k < |all| && keep(all[k]) ensures k in ks' {
      if k < |s| { assert keep(s[k]) && k in ks; } else { assert ks'[|ks|] == k; }
    }
  }

  ghost predicate AreImages<T, U>(items: seq<T>, ks: seq<nat>, images: seq<U>, image: (T, U) -> bool) {
    |images| == |ks| && forall i | 0 <= i < |ks| :: ks[i] < |items| && image(items[ks[i]], images[i])
  }

  /** `images` are the images of the items at `ks`, and these are the ones that stay. */
  ghost predicate IsRecord<T, U>(items: seq<T>, ks: seq<nat>, images: seq<U>, stays: T -> bool, image: (T, U) -> bool) {
    Picks(ks, items, stays) && AreImages(items, ks, images, image)
  }

  lemma {:induction false} ImagesGrow<T, U>(items: seq<T>, x: T, ks: seq<nat>, images: seq<U>, y: U, image: (T, U) -> bool)
    requires AreImages(items, ks, images, image)
    ensures AreImages(items + [x], ks, images, image)
    ensures image(x, y) ==> AreImages(items + [x], ks + [|items|], images + [y], image)
  {
    assert forall i | 0 <= i < |ks| :: ks[i] < |items| && (items + [x])[ks[i]] == items[ks[i]];
  }

  /** An element that is kept adds its image. */
  lemma {:induction false} RecordGrows<T, U>(items: seq<T>, x: T, ks: seq<nat>, images: seq<U>, y: U, stays: T -> bool, image: (T, U) -> bool)
    requires IsRecord(items, ks, images, stays, image) && stays(x) && image(x, y)
    ensures IsRecord(items + [x], ks + [|items|], images + [y], stays, image)
  {
    PicksGrow(ks, items, x, stays);
    ImagesGrow(items, x, ks, images, y, image);
  }

  lemma {:induction false} RecordSkips<T, U>(items: seq<T>, x: T, ks: seq<nat>, images: seq<U>, stays: T -> bool, image: (T, U) -> bool)
    requires IsRecord(items, ks, images, stays, image) && !stays(x)
    ensures IsRecord(items + [x], ks, images, stays, image)
  {
    PicksGrow(ks, items, x, stays);
    assert forall i | 0 <= i < |ks| :: ks[i] < |items| && (items + [x])[ks[i]] == items[ks[i]];
  }
}
