/** The meme gallery's paging state: an append-only list, the id of the last meme
    received (sent back as `last_meme_id`) and whether the server has more. */
module MemeGallery {
  import opened Wire
  import Session

  /** `last_meme_id` of the first page. */
  const FirstCursor := "0"

  class Gallery {
    var memes: seq<Meme>
    var lastMemeId: string
    var hasMore: bool
    var isLoading: bool

    constructor ()
      ensures memes == [] && lastMemeId == FirstCursor && hasMore && !isLoading
    {
      memes, lastMemeId, hasMore, isLoading := [], FirstCursor, true, false;
    }

    /** The guard of `loadMemes`. */
    predicate LoadAllowed(s: Session.State)
      reads this
    {
      Session.SignedIn(s) && !isLoading && hasMore
    }

    /** `loadMemes` with the fetch call's result; returns the `last_meme_id` it sent,
        if it sent a request. */
    method LoadMemes(store: Session.SessionStore, result: Remote<MemesResponse>) returns (requested: Option<string>)
      modifies this
      ensures requested == if old(LoadAllowed(store.Snapshot())) then Some(old(lastMemeId)) else None
      ensures requested.None? ==>
        memes == old(memes) && lastMemeId == old(lastMemeId) && hasMore == old(hasMore) && isLoading == old(isLoading)
      ensures requested.Some? ==> !isLoading
      ensures requested.Some? && result.Done? ==>
        memes == old(memes) + result.value.memes &&
        |memes| == |old(memes)| + |result.value.memes| &&
        hasMore == result.value.hasMore &&
        lastMemeId == if |result.value.memes| > 0 then result.value.memes[|result.value.memes| - 1].id
                      else old(lastMemeId)
      ensures requested.Some? && result.Failed? ==>
        memes == old(memes) && hasMore == old(hasMore) && lastMemeId == old(lastMemeId)
      ensures old(memes) <= memes
      ensures !old(hasMore) ==> memes == old(memes) && !hasMore
    {
      if !LoadAllowed(store.Snapshot()) {
        return None;
      }
      requested := Some(lastMemeId);
      isLoading := true;
      match result {
        case Done(page) =>
          memes := memes + page.memes;
          hasMore := page.hasMore;
          if |page.memes| > 0 {
            lastMemeId := page.memes[|page.memes| - 1].id;
          }
        case Failed(_) =>
      }
      isLoading := false;
    }
  }
}
