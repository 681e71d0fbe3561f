/** Cart line items and the three list computations the cart is built from:
    the first-match search, the filter that drops an id and the map that
    sets one id's quantity. */
module Products {

  datatype Option<+T> = None | Some(value: T)

  /** Descriptive catalogue fields; the cart carries them and never reads them. */
  datatype Details = Details(name: string, price: real, image: string)

  /** A cart line: a product id, the quantity selected and the descriptive fields. */
  datatype Product = Product(id: int, amount: int, details: Details)

  /** Some line of `cart` has product id `id`. */
  predicate Has(cart: seq<Product>, id: int)
  {
    exists i :: 0 <= i < |cart| && cart[i].id == id
  }

  /** No two lines share a product id. */
  ghost predicate UniqueIds(cart: seq<Product>)
  {
    forall i, j :: 0 <= i < j < |cart| ==> cart[i].id != cart[j].id
  }

  /** Every line holds at least one unit. */
  ghost predicate PositiveAmounts(cart: seq<Product>)
  {
    forall p :: p in cart ==> p.amount >= 1
  }

  /** The cart invariant the storefront relies on. */
  ghost predicate WellFormed(cart: seq<Product>)
  {
    UniqueIds(cart) && PositiveAmounts(cart)
  }

  /** The search for a line whose id is `id`: such a line, if any
      (the first one, as FindFirst states). */
  function Find(cart: seq<Product>, id: int): (r: Option<Product>)
    ensures r.None? <==> !Has(cart, id)
    ensures r.Some? ==> r.value.id == id
  {
    if cart == [] then None
    else if cart[0].id == id then Some(cart[0])
    else
      Find(cart[1..], id)
  }

  /** The filter keeping the lines whose id is not `id`: every line of that id dropped. */
  function Without(cart: seq<Product>, id: int): (r: seq<Product>)
    ensures forall p :: p in r <==> p in cart && p.id != id
    ensures |r| <= |cart|
  {
    if cart == [] then []
    else if cart[0].id == id then Without(cart[1..], id)
    else [cart[0]] + Without(cart[1..], id)
  }

  /** The map replacing the amount of every line whose id is `id`;
      lines of other ids are passed through as they are. */
  function SetAmount(cart: seq<Product>, id: int, amount: int): seq<Product>
  {
    if cart == [] then []
    else
      var line := if cart[0].id == id then cart[0].(amount := amount) else cart[0];
      [line] + SetAmount(cart[1..], id, amount)
  }

  /** The search returns the first line carrying the id. */
  lemma {:induction false} FindFirst(cart: seq<Product>, i: int)
    requires 0 <= i < |cart|
    requires !Has(cart[..i], cart[i].id)
    ensures Find(cart, cart[i].id) == Some(cart[i])
  {
    if i > 0 {
      var pre, tail := cart[..i], cart[1..];
      assert pre[0] == cart[0];
      assert tail[i - 1] == cart[i];
      assert !Has(tail[..i - 1], cart[i].id) by {
        var front := tail[..i - 1];
        forall k | 0 <= k < |front| ensures front[k].id != cart[i].id {
          assert front[k] == pre[k + 1];
        }
      }
      FindFirst(tail, i - 1);
    }
  }

  /** With unique ids, the line found for an id is the one line carrying it. */
  lemma FindUnique(cart: seq<Product>, i: int)
    requires UniqueIds(cart)
    requires 0 <= i < |cart|
    ensures Find(cart, cart[i].id) == Some(cart[i])
  {
    UniqueElsewhereAbsent(cart, i);
    FindFirst(cart, i);
  }

  /** Filtering out an id that no line carries gives back the same cart. */
  lemma {:induction false} WithoutAbsent(cart: seq<Product>, id: int)
    requires !Has(cart, id)
    ensures Without(cart, id) == cart
  {
    if cart != [] {
      assert cart[0].id != id;
      assert !Has(cart[1..], id) by {
        forall k | 0 <= k < |cart[1..]| ensures cart[1..][k].id != id {
          assert cart[1..][k] == cart[k + 1];
        }
      }
      WithoutAbsent(cart[1..], id);
    }
  }

  /** Filtering keeps order: it works piece by piece on a concatenation. */
  lemma {:induction false} WithoutConcat(a: seq<Product>, b: seq<Product>, id: int)
    ensures Without(a + b, id) == Without(a, id) + Without(b, id)
  {
    if a == [] {
      assert a + b == b;
    } else {
      assert (a + b)[0] == a[0];
      assert (a + b)[1..] == a[1..] + b;
      WithoutConcat(a[1..], b, id);
    }
  }

  /** With unique ids, no line before or after line `i` carries its id. */
  lemma UniqueElsewhereAbsent(cart: seq<Product>, i: int)
    requires UniqueIds(cart)
    requires 0 <= i < |cart|
    ensures !Has(cart[..i], cart[i].id) && !Has(cart[i + 1..], cart[i].id)
  {
    var pre, post := cart[..i], cart[i + 1..];
    forall k | 0 <= k < |pre| ensures pre[k].id != cart[i].id {
      assert pre[k] == cart[k];
    }
    forall k | 0 <= k < |post| ensures post[k].id != cart[i].id {
      assert post[k] == cart[i + 1 + k];
    }
  }

  /** Filtering a line's id around that line filters the parts before and after it. */
  lemma WithoutSplit(pre: seq<Product>, p: Product, post: seq<Product>)
    ensures Without(pre + [p] + post, p.id) == Without(pre, p.id) + Without(post, p.id)
  {
    assert pre + [p] + post == pre + ([p] + post);
    WithoutConcat(pre, [p] + post, p.id);
    WithoutConcat([p], post, p.id);
    assert [p][1..] == [];
  }

  /** Filtering the id of a line that no other line carries cuts out just that line. */
  lemma WithoutOnlyLine(pre: seq<Product>, p: Product, post: seq<Product>)
    requires !Has(pre, p.id) && !Has(post, p.id)
    ensures Without(pre + [p] + post, p.id) == pre + post
  {
    WithoutSplit(pre, p, post);
    WithoutAbsent(pre, p.id);
    WithoutAbsent(post, p.id);
  }

  /** With unique ids, filtering a present id removes exactly its one line
      and keeps the lines before and after it in place. */
  lemma WithoutUniqueLine(cart: seq<Product>, i: int)
    requires UniqueIds(cart)
    requires 0 <= i < |cart|
    ensures Without(cart, cart[i].id) == cart[..i] + cart[i + 1..]
  {
    UniqueElsewhereAbsent(cart, i);
    assert cart == cart[..i] + [cart[i]] + cart[i + 1..];
    WithoutOnlyLine(cart[..i], cart[i], cart[i + 1..]);
  }

  /** Filtering keeps the ids of a cart unique. */
  lemma {:induction false} WithoutKeepsUnique(cart: seq<Product>, id: int)
    requires UniqueIds(cart)
    ensures UniqueIds(Without(cart, id))
  {
    if cart != [] {
      var tail := cart[1..];
      assert UniqueIds(tail) by {
        forall i, j | 0 <= i < j < |tail| ensures tail[i].id != tail[j].id {
          assert tail[i] == cart[i + 1] && tail[j] == cart[j + 1];
        }
      }
      WithoutKeepsUnique(tail, id);
      if cart[0].id != id {
        var rest := Without(tail, id);
        var r := [cart[0]] + rest;
        forall i, j | 0 <= i < j < |r| ensures r[i].id != r[j].id {
          if i == 0 {
            assert r[j] == rest[j - 1];
            assert rest[j - 1] in tail;
            var k :| 0 <= k < |tail| && tail[k] == rest[j - 1];
            assert tail[k] == cart[k + 1];
          } else {
            assert r[i] == rest[i - 1] && r[j] == rest[j - 1];
          }
        }
      }
    }
  }

  /** Appending a line with a new id and a positive amount keeps the cart invariant. */
  lemma AppendKeepsWellFormed(cart: seq<Product>, line: Product)
    requires WellFormed(cart)
    requires !Has(cart, line.id) && line.amount >= 1
    ensures WellFormed(cart + [line])
  {
    var r := cart + [line];
    forall i, j | 0 <= i < j < |r| ensures r[i].id != r[j].id {
      assert r[i] == cart[i];
      if j < |cart| {
        assert r[j] == cart[j];
      }
    }
  }

  /** The map keeps the length and, line by line, the id and the descriptive
      fields; lines of the id get the new amount and all others stay as they were. */
  lemma {:induction false} SetAmountLines(cart: seq<Product>, id: int, amount: int)
    ensures |SetAmount(cart, id, amount)| == |cart|
    ensures forall i :: 0 <= i < |cart| ==>
      SetAmount(cart, id, amount)[i].id == cart[i].id && SetAmount(cart, id, amount)[i].details == cart[i].details
    ensures forall i :: 0 <= i < |cart| && cart[i].id == id ==> SetAmount(cart, id, amount)[i].amount == amount
    ensures forall i :: 0 <= i < |cart| && cart[i].id != id ==> SetAmount(cart, id, amount)[i] == cart[i]
  {
    if cart != [] {
      SetAmountLines(cart[1..], id, amount);
      var r := SetAmount(cart, id, amount);
      forall i | 0 < i < |cart| ensures r[i] == SetAmount(cart[1..], id, amount)[i - 1] && cart[i] == cart[1..][i - 1] {
      }
    }
  }

  /** Setting a quantity never changes which ids a cart holds (positions: SetAmountLines). */
  lemma SetAmountKeepsIds(cart: seq<Product>, id: int, amount: int)
    ensures forall k :: Has(SetAmount(cart, id, amount), k) <==> Has(cart, k)
    ensures UniqueIds(cart) ==> UniqueIds(SetAmount(cart, id, amount))
  {
    var r := SetAmount(cart, id, amount);
    SetAmountLines(cart, id, amount);
    forall k ensures Has(r, k) <==> Has(cart, k) {
      if Has(r, k) {
        var i :| 0 <= i < |r| && r[i].id == k;
        assert cart[i].id == k;
      }
      if Has(cart, k) {
        var i :| 0 <= i < |cart| && cart[i].id == k;
        assert r[i].id == k;
      }
    }
  }

  /** Setting the quantity of an id that no line carries gives back the same cart. */
  lemma SetAmountAbsent(cart: seq<Product>, id: int, amount: int)
    requires !Has(cart, id)
    ensures SetAmount(cart, id, amount) == cart
  {
    var r := SetAmount(cart, id, amount);
    SetAmountLines(cart, id, amount);
    forall i | 0 <= i < |cart| ensures r[i] == cart[i] {
      assert cart[i].id != id;
    }
  }

  /** With unique ids, setting a present id's quantity updates exactly its one line. */
  lemma SetAmountUniqueLine(cart: seq<Product>, i: int, amount: int)
    requires UniqueIds(cart)
    requires 0 <= i < |cart|
    ensures SetAmount(cart, cart[i].id, amount) == cart[i := cart[i].(amount := amount)]
  {
    var r := SetAmount(cart, cart[i].id, amount);
    var s := cart[i := cart[i].(amount := amount)];
    SetAmountLines(cart, cart[i].id, amount);
    forall k | 0 <= k < |cart| ensures r[k] == s[k] {
      if k == i {
        assert r[k].id == cart[i].id && r[k].details == cart[i].details && r[k].amount == amount;
      }
    }
  }
}
