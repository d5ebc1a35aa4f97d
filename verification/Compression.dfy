// The product a compression answers a judgment with, as the event it commits as and
// as what reads back from it, and the consumer that answers every judgment once.
module Compression {
  import opened Core
  import opened EventBody

  const PRODUCER := "assembly.compress-consumer"
  const META_REQUEST := "compress_request"
  const META_PRODUCER := "compress_producer"
  const META_KEY := "compress_key"
  const META_COVERED := "compress_covered"
  const META_TEXT := "compress_text"
  const META_SUMMARY := "event_summary"
  const SEPARATOR := '\n'

  datatype Product = Product(id: string, request: string, producer: string, key: string, covered: seq<string>, text: string)

  /** The content the identity of a product addresses; its digest is not modelled. */
  function ProductId(request: string, producer: string, key: string): (id: string)
    ensures id != ""
  {
    "cmpout-" + request + "\0" + producer + "\0" + key
  }

  function ProductFor(request: string, producer: string, key: string, covered: seq<string>, text: string): Product {
    Product(ProductId(request, producer, key), request, producer, key, covered, text)
  }

  function Join(keys: seq<string>): string {
    if keys == [] then ""
    else if |keys| == 1 then keys[0]
    else keys[0] + [SEPARATOR] + Join(keys[1..])
  }

  /** The parts between the separators; a string without one is its own part. */
  function Split(s: string): (parts: seq<string>)
    ensures parts != []
    ensures forall p :: p in parts ==> SEPARATOR !in p
  {
    if s == "" then [""]
    else
      var rest := Split(s[1..]);
      if s[0] == SEPARATOR then [""] + rest else [[s[0]] + rest[0]] + rest[1..]
  }

  /** compressCoveredOf: the parts that name a key. */
  method CoveredOf(covered: string) returns (keys: seq<string>)
    ensures keys == Covered(covered)
  {
    if covered == "" { return []; }
    var parts := Split(covered);
    keys := [];
    for i := 0 to |parts|
      invariant keys == Filter(parts[..i], (p: string) => p != "")
    {
      assert parts[..i + 1][..i] == parts[..i];
      if parts[i] == "" { continue; }
      keys := keys + [parts[i]];
    }
    assert parts[..|parts|] == parts;
  }

  function Covered(covered: string): (keys: seq<string>)
    ensures forall k :: k in keys ==> Plain(k)
  {
    if covered == "" then [] else Filter(Split(covered), (p: string) => p != "")
  }

  /** A key the separator cannot break. */
  predicate Plain(k: string) { k != "" && SEPARATOR !in k }

  lemma {:induction false} SplitFront(a: string, rest: string)
    requires SEPARATOR !in a
    ensures Split(a + [SEPARATOR] + rest) == [a] + Split(rest)
    ensures Split(a) == [a]
  {
    var s := a + [SEPARATOR] + rest;
    if a == "" {
      assert s[1..] == rest;
    } else {
      SplitFront(a[1..], rest);
      assert s[1..] == a[1..] + [SEPARATOR] + rest;
      assert [a[0]] + a[1..] == a;
    }
  }

  lemma {:induction false} SplitJoin(keys: seq<string>)
    requires keys != [] && forall k :: k in keys ==> SEPARATOR !in k
    ensures Split(Join(keys)) == keys
  {
    if |keys| == 1 {
      SplitFront(keys[0], "");
      assert keys == [keys[0]];
    } else {
      SplitJoin(keys[1..]);
      SplitFront(keys[0], Join(keys[1..]));
      assert keys == [keys[0]] + keys[1..];
    }
  }

  /** The covered keys read back exactly when every one is named and carries no separator. */
  lemma CoveredReadsBack(keys: seq<string>)
    ensures Covered(Join(keys)) == keys <==> forall k :: k in keys ==> Plain(k)
  {
    if forall k :: k in keys ==> Plain(k) {
      if keys != [] {
        SplitJoin(keys);
        KeepsPlain(keys);
        assert Split("") == [""];
        assert Join(keys) != "";
      }
    }
  }

  lemma {:induction false} KeepsPlain(keys: seq<string>)
    requires forall k :: k in keys ==> Plain(k)
    ensures Filter(keys, (p: string) => p != "") == keys
  {
    if keys != [] {
      KeepsPlain(keys[..|keys| - 1]);
      assert keys[|keys| - 1] in keys;
    }
  }

  /** compressProductEvent: the product in the metadata of a fact that speaks no text. */
  function ProductEvent(session: string, agent: string, p: Product, at: int): Event {
    var zero := Address("", "");
    Event(p.id, CompressProduct, at,
          map[META_SUMMARY := "compress product " + p.key, META_REQUEST := p.request, META_PRODUCER := p.producer,
              META_KEY := p.key, META_COVERED := Join(p.covered), META_TEXT := p.text],
          Message("", "", [], "", ""), Address(agent, session), zero, zero, "", "", "", "", "", "", "", "")
  }

  function Meta(e: Event, name: string): string { if name in e.meta then e.meta[name] else "" }

  /** compressProductOf: a fact that names no key or no request, or that stands under another
      identity than it spells, states no product. */
  function ReadProduct(e: Event): Option<Product> {
    if Meta(e, META_KEY) == "" || Meta(e, META_REQUEST) == "" then None
    else
      var p := ProductFor(Meta(e, META_REQUEST), Meta(e, META_PRODUCER), Meta(e, META_KEY), Covered(Meta(e, META_COVERED)), Meta(e, META_TEXT));
      if p.id != e.key then None else Some(p)
  }

  /** A product event reads back as the same product exactly when the product names its key
      and its judgment and every covered key is plain. */
  lemma ProductRoundTrip(session: string, agent: string, request: string, producer: string, key: string, covered: seq<string>, text: string, at: int)
    ensures var p := ProductFor(request, producer, key, covered, text);
            ReadProduct(ProductEvent(session, agent, p, at)) == Some(p)
            <==> request != "" && key != "" && forall k :: k in covered ==> Plain(k)
  {
    hide Join, Covered, Plain, ProductId;
    CoveredReadsBack(covered);
    var p := ProductFor(request, producer, key, covered, text);
    var e := ProductEvent(session, agent, p, at);
    assert Meta(e, META_KEY) == key && Meta(e, META_REQUEST) == request && Meta(e, META_PRODUCER) == producer;
    assert Meta(e, META_COVERED) == Join(covered) && Meta(e, META_TEXT) == text;
  }

  // --- the consumer ---

  datatype Request = Request(id: string, reason: string, subject: string)

  /** What a plan answers one judgment with. */
  datatype FoldProduct = FoldProduct(request: string, key: string, covered: seq<string>, text: string)

  datatype Projection = NoProjection | Projected(threshold: int)

  /** The product a fold of a plan is filed as. */
  function FiledAs(f: FoldProduct): Product { ProductFor(f.request, PRODUCER, f.key, f.covered, f.text) }

  /** The judgments some folds answer. */
  ghost function JudgmentsOf(folds: seq<FoldProduct>): set<string> { set f | f in folds :: f.request }

  lemma JudgmentsMore(folds: seq<FoldProduct>, f: FoldProduct)
    ensures JudgmentsOf(folds + [f]) == JudgmentsOf(folds) + {f.request}
  {
  }

  /** No judgment is folded twice. */
  ghost predicate DistinctFolds(folds: seq<FoldProduct>) {
    forall i, j :: 0 <= i < j < |folds| ==> folds[i].request != folds[j].request
  }

  /** The ledger gained exactly the products of the folds: nothing on record moved, every fold
      has its identity on record, and whatever is new there is the product of one of them,
      with its key, the keys it covers and its text. */
  ghost predicate Gained(before: map<string, Product>, folds: seq<FoldProduct>, now: map<string, Product>) {
    && (forall id :: id in before ==> id in now && now[id] == before[id])
    && (forall f :: f in folds ==> ProductId(f.request, PRODUCER, f.key) in now)
    && (forall id :: id in now && id !in before ==> exists f :: (
          && f in folds && id == ProductId(f.request, PRODUCER, f.key)
          && now[id] == Product(id, f.request, PRODUCER, f.key, f.covered, f.text)))
  }

  lemma GainedMore(before: map<string, Product>, folds: seq<FoldProduct>, mid: map<string, Product>, f: FoldProduct, now: map<string, Product>)
    requires Gained(before, folds, mid)
    requires now == if FiledAs(f).id in mid then mid else mid[FiledAs(f).id := FiledAs(f)]
    ensures Gained(before, folds + [f], now)
  {
    hide ProductId;
    assert f in folds + [f];
    assert forall g :: g in folds ==> g in folds + [f];
    forall id | id in now && id !in before
      ensures exists g :: g in folds + [f] && id == ProductId(g.request, PRODUCER, g.key) && now[id] == Product(id, g.request, PRODUCER, g.key, g.covered, g.text)
    {
      if id in mid {
        var g :| g in folds && id == ProductId(g.request, PRODUCER, g.key) && mid[id] == Product(id, g.request, PRODUCER, g.key, g.covered, g.text);
        assert g in folds + [f];
      }
    }
  }

  /** The last product a plan names for a judgment. */
  function LastNamed(products: seq<FoldProduct>, id: string): (f: Option<FoldProduct>)
    ensures f.Some? ==> f.value in products && f.value.request == id
    ensures f.None? <==> forall p :: p in products ==> p.request != id
  {
    if products == [] then None
    else if products[|products| - 1].request == id then Some(products[|products| - 1])
    else LastNamed(products[..|products| - 1], id)
  }

  /** What a plan names for a list of judgments, in their order. */
  function Planned(rs: seq<Request>, products: seq<FoldProduct>): (folds: seq<FoldProduct>)
    ensures forall f :: f in folds ==> f in products && exists r :: r in rs && r.id == f.request
    ensures forall r :: r in rs && LastNamed(products, r.id).Some? ==> LastNamed(products, r.id).value in folds
  {
    if rs == [] then []
    else
      var named := LastNamed(products, rs[|rs| - 1].id);
      Planned(rs[..|rs| - 1], products) + if named.Some? then [named.value] else []
  }

  class CompressionConsumer {
    var judgments: map<string, seq<Request>>
    var answered: set<string>
    // the products the ledger of the run holds, by identity
    var onRecord: map<string, Product>
    // the folds the projections applied, in order
    var folded: seq<FoldProduct>

    ghost predicate Valid()
      reads this
    {
      && (forall s :: s in judgments ==> DistinctRequests(judgments[s]))
      && (forall id :: id in onRecord ==> onRecord[id].id == id)
      && DistinctFolds(folded)
      && (forall f :: f in folded ==> f.request in answered && ProductId(f.request, PRODUCER, f.key) in onRecord)
    }

    function Filed(session: string): seq<Request>
      reads this
    {
      if session in judgments then judgments[session] else []
    }

    ghost function PendingOf(session: string): seq<Request>
      reads this
    {
      Unanswered(Filed(session), answered)
    }

    constructor ()
      ensures Valid() && judgments == map[] && answered == {} && onRecord == map[] && folded == []
    {
      judgments, answered, onRecord, folded := map[], {}, map[], [];
    }

    /** Record: a judgment already noted is noted once. */
    method Record(session: string, request: Request)
      requires Valid()
      modifies this`judgments
      ensures Valid()
      ensures session == "" || request.id == "" || (exists r :: r in old(Filed(session)) && r.id == request.id) ==> judgments == old(judgments)
      ensures session != "" && request.id != "" && !(exists r :: r in old(Filed(session)) && r.id == request.id) ==>
                judgments == old(judgments)[session := old(Filed(session)) + [request]]
    {
      if session == "" || request.id == "" { return; }
      var held := Filed(session);
      for i := 0 to |held|
        invariant forall j :: 0 <= j < i ==> held[j].id != request.id
      {
        if held[i].id == request.id {
          assert held[i] in held;
          return;
        }
      }
      judgments := judgments[session := held + [request]];
    }

    /** NoteProduct: a product the chain already carries answers its judgment. */
    method NoteProduct(p: Product)
      requires Valid()
      modifies this`answered
      ensures Valid() && answered == if p.request == "" then old(answered) else old(answered) + {p.request}
    {
      if p.request != "" { answered := answered + {p.request}; }
    }

    /** pending, in filing order. */
    method Pending(session: string) returns (out: seq<Request>)
      ensures out == PendingOf(session)
    {
      var held := Filed(session);
      out := [];
      for i := 0 to |held|
        invariant out == Unanswered(held[..i], answered)
      {
        assert held[..i + 1][..i] == held[..i];
        if held[i].id in answered { continue; }
        out := out + [held[i]];
      }
      assert held[..|held|] == held;
    }

    /** fileCompressProduct: a product already on record is left as it stands. */
    method FileCompressProduct(session: string, p: Product) returns (ok: bool)
      modifies this`onRecord
      ensures ok ==> session != "" && p.id != ""
      ensures onRecord == if !ok || p.id in old(onRecord) then old(onRecord) else old(onRecord)[p.id := p]
    {
      if session == "" || p.id == "" { return false; }
      if p.id in onRecord { return true; }
      // the commit may be refused
      if * { return false; }
      onRecord := onRecord[p.id := p];
      ok := true;
    }

    /** Execute: every pending judgment the plan names a product for is answered by filing it,
        then applied; one it names none for, and every one behind a refused filing, stays
        pending. The plan may answer anything. What was filed is the plan's products for the
        first judgments pending, in filing order: all of them, or those before the refusal. */
    method Execute(session: string, projection: Projection, planned: bool, products: seq<FoldProduct>)
      returns (ok: bool, ghost done: seq<FoldProduct>)
      requires Valid()
      modifies this`answered, this`onRecord, this`folded
      ensures Valid()
      ensures Gained(old(onRecord), done, onRecord) && folded == old(folded) + done
      ensures answered == old(answered) + JudgmentsOf(done)
      ensures exists n: nat :: n <= |old(PendingOf(session))| && done == Planned(old(PendingOf(session))[..n], products)
      ensures forall id :: id in answered - old(answered) ==>
                (exists r :: r in old(PendingOf(session)) && r.id == id)
                && exists f :: f in products && f.request == id && ProductId(id, PRODUCER, f.key) in onRecord
      ensures ok && session != "" && projection.Projected? && projection.threshold > 0 && planned ==>
                forall r :: r in PendingOf(session) ==> forall p :: p in products ==> p.request != r.id
      ensures session == "" || projection.NoProjection? || projection.threshold <= 0 || !planned ==> done == []
    {
      done := [];
      ghost var waiting := PendingOf(session);
      assert Planned(waiting[..0], products) == [];
      if session == "" { return true, []; }
      var pending := Pending(session);
      PendingDistinct(Filed(session), answered);
      if |pending| == 0 { return true, []; }
      if projection.NoProjection? || projection.threshold <= 0 { return true, []; }
      if !planned { return false, []; }
      if |products| == 0 { return true, []; }
      var named := NamedProducts(products);
      ok, done := AnswerAll(session, pending, named, products);
    }

    /** The pending judgments in filing order, each answered by the product named for it. */
    method AnswerAll(session: string, pending: seq<Request>, named: map<string, FoldProduct>, ghost products: seq<FoldProduct>)
      returns (ok: bool, ghost done: seq<FoldProduct>)
      requires Valid() && DistinctRequests(pending) && forall r :: r in pending ==> r.id !in answered
      requires forall id :: Lookup(named, id) == LastNamed(products, id)
      modifies this`answered, this`onRecord, this`folded
      ensures Valid()
      ensures Gained(old(onRecord), done, onRecord) && folded == old(folded) + done
      ensures answered == old(answered) + JudgmentsOf(done)
      ensures exists n: nat :: n <= |pending| && (ok ==> n == |pending|) && done == Planned(pending[..n], products)
    {
      done := [];
      ghost var had, held := answered, onRecord;
      for i := 0 to |pending|
        invariant Valid() && Answers(had, held, done, answered, onRecord) && folded == old(folded) + done
        invariant done == Planned(pending[..i], products)
      {
        var request := pending[i];
        hide *;
        PlannedMore(pending, i, products);
        NotAnswered(pending, i, products, had, held, answered, onRecord);
        assert Lookup(named, request.id) == LastNamed(products, request.id);
        NamedIs(named, request.id, products);
        if request.id !in named { continue; }
        ghost var before, mid := answered, onRecord;
        var filedNow := Answer(session, request.id, named[request.id]);
        if !filedNow { return false, done; }
        AnswersMore(had, held, done, before, mid, named[request.id], answered, onRecord);
        done := done + [named[request.id]];
      }
      assert pending[..|pending|] == pending;
      ok := true;
    }

    /** One product filed for one judgment, noted and applied. */
    method Answer(session: string, id: string, product: FoldProduct) returns (ok: bool)
      requires Valid() && id !in answered && product.request == id
      modifies this`answered, this`onRecord, this`folded
      ensures Valid() && answered == if ok then old(answered) + {id} else old(answered)
      ensures onRecord == if !ok || FiledAs(product).id in old(onRecord) then old(onRecord) else old(onRecord)[FiledAs(product).id := FiledAs(product)]
      ensures folded == if ok then old(folded) + [product] else old(folded)
    {
      hide ProductId;
      ok := FileCompressProduct(session, ProductFor(id, PRODUCER, product.key, product.covered, product.text));
      if !ok { return; }
      answered := answered + {id};
      folded := folded + [product];
    }
  }

  lemma PlannedMore(pending: seq<Request>, i: nat, products: seq<FoldProduct>)
    requires i < |pending|
    ensures var named := LastNamed(products, pending[i].id);
            Planned(pending[..i + 1], products) == Planned(pending[..i], products) + if named.Some? then [named.value] else []
  {
    assert pending[..i + 1][..i] == pending[..i];
  }

  /** What a pass has answered so far. */
  ghost predicate Answers(had: set<string>, held: map<string, Product>, done: seq<FoldProduct>, answered: set<string>, onRecord: map<string, Product>) {
    answered == had + JudgmentsOf(done) && Gained(held, done, onRecord)
  }

  lemma AnswersMore(had: set<string>, held: map<string, Product>, done: seq<FoldProduct>, before: set<string>, mid: map<string, Product>,
                    f: FoldProduct, answered: set<string>, onRecord: map<string, Product>)
    requires Answers(had, held, done, before, mid) && answered == before + {f.request}
    requires onRecord == if FiledAs(f).id in mid then mid else mid[FiledAs(f).id := FiledAs(f)]
    ensures Answers(had, held, done + [f], answered, onRecord)
  {
    hide Gained, FiledAs;
    GainedMore(held, done, mid, f, onRecord);
    JudgmentsMore(done, f);
  }

  lemma NotAnswered(pending: seq<Request>, i: nat, products: seq<FoldProduct>, had: set<string>, held: map<string, Product>,
                    answered: set<string>, onRecord: map<string, Product>)
    requires DistinctRequests(pending) && (forall r :: r in pending ==> r.id !in had) && i < |pending|
    requires Answers(had, held, Planned(pending[..i], products), answered, onRecord)
    ensures pending[i].id !in answered
  {
    hide Gained, Planned;
    assert pending[i] in pending;
  }

  lemma NamedIs(named: map<string, FoldProduct>, id: string, products: seq<FoldProduct>)
    requires Lookup(named, id) == LastNamed(products, id)
    ensures id in named <==> LastNamed(products, id).Some?
    ensures id in named ==> named[id] == LastNamed(products, id).value && named[id].request == id
  {
  }

  ghost predicate DistinctRequests(rs: seq<Request>) {
    forall i, j :: 0 <= i < j < |rs| ==> rs[i].id != rs[j].id
  }

  function Unanswered(rs: seq<Request>, answered: set<string>): (r: seq<Request>)
    ensures forall x :: x in r <==> x in rs && x.id !in answered
  {
    if rs == [] then []
    else Unanswered(rs[..|rs| - 1], answered) + if rs[|rs| - 1].id in answered then [] else [rs[|rs| - 1]]
  }

  lemma {:induction false} PendingDistinct(rs: seq<Request>, answered: set<string>)
    requires DistinctRequests(rs)
    ensures DistinctRequests(Unanswered(rs, answered))
  {
    if rs != [] {
      var init, last := rs[..|rs| - 1], rs[|rs| - 1];
      PendingDistinct(init, answered);
      forall x | x in Unanswered(init, answered) ensures x.id != last.id {
        var i :| 0 <= i < |init| && init[i] == x;
        assert rs[i] == x;
      }
    }
  }

  /** The last product a plan names for each judgment. */
  method NamedProducts(products: seq<FoldProduct>) returns (named: map<string, FoldProduct>)
    ensures forall id :: Lookup(named, id) == LastNamed(products, id)
  {
    named := map[];
    for i := 0 to |products|
      invariant forall id :: Lookup(named, id) == LastNamed(products[..i], id)
    {
      assert products[..i + 1][..i] == products[..i];
      named := named[products[i].request := products[i]];
    }
    assert products[..|products|] == products;
  }
}
