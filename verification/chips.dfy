/** The badge row the cards draw for a list of skills or topics: the first
    `n` entries, followed by a "+k" badge for the rest when there is a rest. */
module Chips {
  import opened Seqs

  datatype Preview<T> = Preview(shown: seq<T>, more: Option<nat>)

  function ChipPreview<T>(xs: seq<T>, n: nat): Preview<T>
  {
    Preview(Take(xs, n), if |xs| > n then Some(|xs| - n) else None)
  }

  /** The number of entries a preview stands for. */
  function Count<T>(p: Preview<T>): nat
  {
    |p.shown| + (if p.more.Some? then p.more.value else 0)
  }

  /** The badges shown are a prefix of the list; the "+k" badge appears
      exactly when something is left out, and shown plus `k` is the length
      of the list. */
  lemma ChipPreviewAccounts<T>(xs: seq<T>, n: nat)
    ensures ChipPreview(xs, n).shown == xs[..|ChipPreview(xs, n).shown|]
    ensures |ChipPreview(xs, n).shown| <= n
    ensures ChipPreview(xs, n).more.Some? <==> |xs| > n
    ensures ChipPreview(xs, n).more.Some? ==> ChipPreview(xs, n).more.value > 0
    ensures Count(ChipPreview(xs, n)) == |xs|
  {
  }
}
