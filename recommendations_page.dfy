/**
 * The recommendations page: on mount it takes the list the home page stored, once, and
 * renders one card per film in the stored order.
 */
module RecommendationsPage {
  import opened Movies
  import BrowserStorage

  /** Base path of the external image host the relative image references resolve against. */
  const IMAGE_BASE: string := "https://a.ltrbxd.com/resized/"
  const IMAGE_SUFFIX: string := ".jpg"

  /** What one card shows; `key` is the React key. The rating is shown unformatted. */
  datatype CardView = CardView(key: string, imageSrc: string, imageAlt: string, title: string, year: int, rating: real)

  /** The card for one film: the image reference wrapped in the host path, title and year as given. */
  function CardOf(item: Item): (c: CardView)
    ensures c.key == item.movieId
    ensures |c.imageSrc| == |IMAGE_BASE| + |item.movieData.imageUrl| + |IMAGE_SUFFIX|
    ensures c.imageSrc[..|IMAGE_BASE|] == IMAGE_BASE
    ensures c.imageSrc[|IMAGE_BASE|..|c.imageSrc| - |IMAGE_SUFFIX|] == item.movieData.imageUrl
    ensures c.imageSrc[|c.imageSrc| - |IMAGE_SUFFIX|..] == IMAGE_SUFFIX
    ensures c.imageAlt == item.movieData.movieTitle && c.title == item.movieData.movieTitle
    ensures c.year == item.movieData.yearReleased && c.rating == item.predictedRating
  {
    var src := IMAGE_BASE + item.movieData.imageUrl + IMAGE_SUFFIX;
    assert src[..|IMAGE_BASE|] == IMAGE_BASE;
    assert src[|IMAGE_BASE|..|src| - |IMAGE_SUFFIX|] == item.movieData.imageUrl;
    assert src[|src| - |IMAGE_SUFFIX|..] == IMAGE_SUFFIX;
    CardView(item.movieId, src, item.movieData.movieTitle, item.movieData.movieTitle,
             item.movieData.yearReleased, item.predictedRating)
  }

  /** The cards of a list: one per film, in the list's order. */
  function Cards(list: seq<Item>): (cards: seq<CardView>)
    ensures |cards| == |list|
    ensures forall i | 0 <= i < |list| :: cards[i] == CardOf(list[i])
  {
    if list == [] then [] else [CardOf(list[0])] + Cards(list[1..])
  }

  /** Rendering preserves the ranking: the cards of a concatenation are the concatenated cards. */
  lemma CardsOfConcatenation(front: seq<Item>, back: seq<Item>)
    ensures Cards(front + back) == Cards(front) + Cards(back)
  {
  }

  /** The recommendations page; `recommendations` is its state, the storage object is shared. */
  class Recommendations {
    var recommendations: seq<Item>
    const storage: BrowserStorage.LocalStorage

    /** A freshly shown page: the list starts empty. */
    constructor (storage: BrowserStorage.LocalStorage)
      ensures recommendations == [] && this.storage == storage
    {
      recommendations := [];
      this.storage := storage;
    }

    /** The cards the page renders. */
    function Rendered(): (cards: seq<CardView>)
      reads this
      ensures |cards| == |recommendations|
    {
      Cards(recommendations)
    }

    /**
     * The mount effect: a stored list becomes the page's list and is removed from storage;
     * with nothing stored, the list and storage stay as they were.
     */
    method MountEffect()
      modifies this, storage
      ensures var taken := BrowserStorage.TakeOnce(old(storage.entries), BrowserStorage.RECOMMENDATIONS_KEY);
              && storage.entries == taken.rest
              && recommendations == if BrowserStorage.RECOMMENDATIONS_KEY in old(storage.entries)
                                    then taken.list else old(recommendations)
    {
      var stored := storage.GetItem(BrowserStorage.RECOMMENDATIONS_KEY);
      if stored.Some? {
        recommendations := stored.value;
        storage.RemoveItem(BrowserStorage.RECOMMENDATIONS_KEY);
      }
    }
  }
}
