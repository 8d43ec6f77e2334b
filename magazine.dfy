// The health magazine (components/Magazine.tsx): which post is open, the
// products recommended under it, how its body is cut into paragraphs and the
// cart quantity each recommended card is given.
module Magazine {
  import opened Types
  import opened Strings
  import opened App

  /** `products.filter(p => ids.includes(p.id))`. */
  function WithIds(products: seq<Product>, ids: seq<int>): (r: seq<Product>)
    ensures |r| <= |products|
    ensures forall p :: p in r <==> p in products && p.id in ids
  {
    if products == [] then []
    else (if products[0].id in ids then [products[0]] else []) + WithIds(products[1..], ids)
  }

  /** The filter keeps the catalogue's order. */
  lemma {:induction false} WithIdsInOrder(products: seq<Product>, ids: seq<int>)
    ensures SubsequenceOf(WithIds(products, ids), products)
  {
    if products != [] {
      WithIdsInOrder(products[1..], ids);
      var rest := WithIds(products[1..], ids);
      if products[0].id in ids {
        assert WithIds(products, ids) == [products[0]] + rest;
        assert ([products[0]] + rest)[1..] == rest;
      } else {
        assert WithIds(products, ids) == rest;
      }
    }
  }

  /** No two catalogue entries share an id. */
  predicate ProductIdsUnique(products: seq<Product>)
  {
    forall i, j :: 0 <= i < j < |products| ==> products[i].id != products[j].id
  }

  /** Filtering a catalogue with unique ids gives a list with unique ids, however often an id is listed. */
  lemma {:induction false} WithIdsUnique(products: seq<Product>, ids: seq<int>)
    requires ProductIdsUnique(products)
    ensures ProductIdsUnique(WithIds(products, ids))
  {
    if products != [] {
      WithIdsUnique(products[1..], ids);
      var rest := WithIds(products[1..], ids);
      forall p | p in rest
        ensures p.id != products[0].id
      {
        var j :| 0 <= j < |products[1..]| && products[1..][j] == p;
        assert products[j + 1] == p;
      }
      if products[0].id in ids {
        var r := [products[0]] + rest;
        forall i, j | 0 <= i < j < |r|
          ensures r[i].id != r[j].id
        {
          if i == 0 {
            assert r[j] == rest[j - 1];
            assert r[j] in rest;
          } else {
            assert r[i] == rest[i - 1] && r[j] == rest[j - 1];
          }
        }
      }
    }
  }

  /**
   * `relatedProducts`: the catalogue entries whose id the post lists, in
   * catalogue order; none when the post lists no ids.
   */
  function RelatedProducts(post: BlogPost, products: seq<Product>): (r: seq<Product>)
    ensures post.relatedProductIds.None? ==> r == []
    ensures forall p :: p in r <==> p in products && post.relatedProductIds.Some? && p.id in post.relatedProductIds.value
    ensures |r| <= |products|
  {
    match post.relatedProductIds
    case None => []
    case Some(ids) => WithIds(products, ids)
  }

  /** The related products appear in catalogue order, each at most once when catalogue ids are unique. */
  lemma RelatedInOrder(post: BlogPost, products: seq<Product>)
    ensures SubsequenceOf(RelatedProducts(post, products), products)
    ensures ProductIdsUnique(products) ==> ProductIdsUnique(RelatedProducts(post, products))
  {
    if post.relatedProductIds.Some? {
      WithIdsInOrder(products, post.relatedProductIds.value);
      if ProductIdsUnique(products) {
        WithIdsUnique(products, post.relatedProductIds.value);
      }
    }
  }

  /**
   * `content.split('\n')`: one paragraph more than there are line breaks,
   * none containing a line break, and joined with line breaks they give the
   * content back.
   */
  function Paragraphs(post: BlogPost): (ps: seq<string>)
    ensures |ps| == Count(post.content, '\n') + 1
    ensures forall k :: 0 <= k < |ps| ==> '\n' !in ps[k]
    ensures Join(ps, "\n") == post.content
  {
    SplitCount(post.content, '\n');
    SplitPiecesFree(post.content, '\n');
    JoinSplit(post.content, '\n');
    Split(post.content, '\n')
  }

  /** The `cartQuantity` a recommended card gets: the first matching line's quantity, 0 with none. */
  lemma CardQuantity(cart: seq<CartItem>, k: nat)
    requires k < |cart| && forall i :: 0 <= i < k ==> cart[i].id() != cart[k].id()
    ensures CartQuantity(cart, cart[k].id()) == cart[k].quantity
  {
    FindFirst(cart, k);
  }

  /** Which article is open; none shows the article list. */
  class MagazineView {
    var selectedPost: Option<BlogPost>

    /** `useState(initialPost || null)`: a deep link opens its article straight away. */
    constructor (initialPost: Option<BlogPost>)
      ensures selectedPost == initialPost
    {
      selectedPost := initialPost;
    }

    /**
     * The related products under the open article; none in the list view.
     * They come in catalogue order, and a catalogue with unique ids shows
     * each product at most once.
     */
    function Related(products: seq<Product>): (r: seq<Product>)
      reads this
      ensures selectedPost.None? ==> r == []
      ensures selectedPost.Some? ==> r == RelatedProducts(selectedPost.value, products)
      ensures SubsequenceOf(r, products)
      ensures ProductIdsUnique(products) ==> ProductIdsUnique(r)
    {
      match selectedPost
      case None => []
      case Some(post) =>
        RelatedInOrder(post, products);
        RelatedProducts(post, products)
    }

    /** A click on an article card. */
    method OpenPost(post: BlogPost)
      modifies this
      ensures selectedPost == Some(post)
    {
      selectedPost := Some(post);
    }

    /** `handleCloseArticle`: back to the list. */
    method ClosePost()
      modifies this
      ensures selectedPost == None
    {
      selectedPost := None;
    }

    /** The effect on `initialPost`: a new deep link opens its article; a cleared one changes nothing. */
    method SyncInitialPost(initialPost: Option<BlogPost>)
      modifies this
      ensures selectedPost == if initialPost.Some? then initialPost else old(selectedPost)
    {
      if initialPost.Some? {
        selectedPost := initialPost;
      }
    }
  }
}
