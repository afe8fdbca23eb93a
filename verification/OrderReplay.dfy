/** Idempotent order creation (cmd/mc-api/order_handlers.go): replay keys and payload signatures. */
module OrderReplay {
  import opened Text

  // ---------------------------------------------------------------- the signature

  function LowerChar(c: char): char {
    if 'A' <= c <= 'Z' then c + 32 as char else c
  }

  function UpperChar(c: char): char {
    if 'a' <= c <= 'z' then c - 32 as char else c
  }

  /** `strings.ToLower`, for ASCII letters. */
  function Lower(s: string): string {
    if s == "" then "" else [LowerChar(s[0])] + Lower(s[1..])
  }

  /** `strings.ToUpper`, for ASCII letters. */
  function Upper(s: string): string {
    if s == "" then "" else [UpperChar(s[0])] + Upper(s[1..])
  }

  datatype Money = Money(amount: int64, currency: string)

  datatype Address = Address(name: string, line1: string, line2: string, city: string, region: string,
      postalCode: string, country: string)

  datatype Item = Item(productID: string, sku: string, title: string, quantity: int64, unitPrice: Money)

  datatype Payload = Payload(email: string, delivery: string, items: seq<Item>, address: Address, shipping: Money)

  function NormalAddress(a: Address): Address {
    Address(TrimSpace(a.name), TrimSpace(a.line1), TrimSpace(a.line2), TrimSpace(a.city), TrimSpace(a.region),
            TrimSpace(a.postalCode), Upper(TrimSpace(a.country)))
  }

  function NormalMoney(m: Money): Money {
    Money(m.amount, Upper(TrimSpace(m.currency)))
  }

  /** No shipping at all stands for free shipping in Australian dollars. */
  function NormalShipping(m: Money): Money {
    if NormalMoney(m) == Money(0, "") then Money(0, "AUD") else NormalMoney(m)
  }

  function NormalItem(i: Item): Item {
    Item(TrimSpace(i.productID), TrimSpace(i.sku), TrimSpace(i.title), i.quantity, NormalMoney(i.unitPrice))
  }

  function NormalItems(items: seq<Item>): seq<Item>
    decreases |items|
  {
    if items == [] then [] else NormalItems(items[..|items| - 1]) + [NormalItem(items[|items| - 1])]
  }

  /** The normalised payload that is hashed. The hash itself is taken to be injective. */
  function Signature(p: Payload): Payload {
    Payload(Lower(TrimSpace(p.email)), Lower(TrimSpace(p.delivery)), NormalItems(p.items), NormalAddress(p.address),
            NormalShipping(p.shipping))
  }

  method OrderCreateReplaySignature(p: Payload) returns (s: Payload)
    ensures s == Signature(p)
  {
    var shipping := NormalMoney(p.shipping);
    if shipping.amount == 0 && shipping.currency == "" {
      shipping := shipping.(currency := "AUD");
    }
    var items: seq<Item> := [];
    var i := 0;
    while i < |p.items|
      invariant i <= |p.items| && items == NormalItems(p.items[..i])
    {
      assert p.items[..i + 1][..i] == p.items[..i];
      items := items + [NormalItem(p.items[i])];
      i := i + 1;
    }
    assert p.items[..i] == p.items;
    s := Payload(Lower(TrimSpace(p.email)), Lower(TrimSpace(p.delivery)), items, NormalAddress(p.address), shipping);
  }

  // Normalising is a projection: what it returns is already normal.

  lemma CharCase(c: char)
    ensures IsSpace(LowerChar(c)) == IsSpace(c) == IsSpace(UpperChar(c))
    ensures LowerChar(LowerChar(c)) == LowerChar(c) && UpperChar(UpperChar(c)) == UpperChar(c)
  {
  }

  lemma {:induction false} CaseKeeps(s: string)
    ensures |Lower(s)| == |Upper(s)| == |s|
    ensures forall i | 0 <= i < |s| :: IsSpace(Lower(s)[i]) == IsSpace(s[i]) == IsSpace(Upper(s)[i])
    ensures Lower(Lower(s)) == Lower(s) && Upper(Upper(s)) == Upper(s)
    decreases |s|
  {
    hide IsSpace, LowerChar, UpperChar;
    if s != "" {
      CaseKeeps(s[1..]);
      CharCase(s[0]);
      assert Lower(s)[1..] == Lower(s[1..]) && Upper(s)[1..] == Upper(s[1..]);
    }
  }

  lemma NormalText(s: string)
    ensures TrimSpace(TrimSpace(s)) == TrimSpace(s)
    ensures Lower(TrimSpace(Lower(TrimSpace(s)))) == Lower(TrimSpace(s))
    ensures Upper(TrimSpace(Upper(TrimSpace(s)))) == Upper(TrimSpace(s))
  {
    hide IsSpace, TrimSpace, Lower, Upper;
    var t := TrimSpace(s);
    var _, _ := TrimSpaceTrims(s);
    CaseKeeps(t);
    TrimmedStays(Lower(t));
    TrimmedStays(Upper(t));
  }

  lemma {:induction false} NormalItemsOnce(items: seq<Item>)
    ensures NormalItems(NormalItems(items)) == NormalItems(items)
    decreases |items|
  {
    hide TrimSpace, Upper;
    if items != [] {
      var most, last := items[..|items| - 1], items[|items| - 1];
      NormalItemsOnce(most);
      assert NormalItems(items)[..|NormalItems(most)|] == NormalItems(most);
      NormalText(last.productID);
      NormalText(last.sku);
      NormalText(last.title);
      NormalText(last.unitPrice.currency);
    }
  }

  lemma AudIsNormal()
    ensures Upper(TrimSpace("AUD")) == "AUD"
  {
    TrimmedStays("AUD");
    assert "AUD"[1..] == "UD" && "UD"[1..] == "D" && "D"[1..] == "";
    assert Upper("D") == "D" && Upper("UD") == "UD";
  }

  /** A client may send its request again in normal form: the signature is the same. */
  lemma SignatureOfNormalForm(p: Payload)
    ensures Signature(Signature(p)) == Signature(p)
  {
    hide TrimSpace, Upper, Lower, NormalItems;
    NormalText(p.email);
    NormalText(p.delivery);
    NormalItemsOnce(p.items);
    NormalText(p.shipping.currency);
    AudIsNormal();
    NormalText(p.address.name);
    NormalText(p.address.line1);
    NormalText(p.address.line2);
    NormalText(p.address.city);
    NormalText(p.address.region);
    NormalText(p.address.postalCode);
    NormalText(p.address.country);
  }

  lemma {:induction false} NormalItemsAt(items: seq<Item>)
    ensures |NormalItems(items)| == |items|
    ensures forall i | 0 <= i < |items| :: NormalItems(items)[i] == NormalItem(items[i])
    decreases |items|
  {
    hide NormalItem;
    if items != [] {
      NormalItemsAt(items[..|items| - 1]);
    }
  }

  lemma {:induction false} CaseOfLetters(s: string)
    ensures forall c | c in Lower(s) :: !('A' <= c <= 'Z')
    ensures forall c | c in Upper(s) :: !('a' <= c <= 'z')
    decreases |s|
  {
    if s != "" {
      CaseOfLetters(s[1..]);
    }
  }

  /** What is hashed is in one case: mail and delivery in lower case, country and currency codes in upper case. */
  lemma SignatureCase(p: Payload)
    ensures forall c | c in Signature(p).email + Signature(p).delivery :: !('A' <= c <= 'Z')
    ensures forall c | c in Signature(p).address.country + Signature(p).shipping.currency :: !('a' <= c <= 'z')
    ensures forall i | i in Signature(p).items :: forall c | c in i.unitPrice.currency :: !('a' <= c <= 'z')
  {
    hide TrimSpace, Upper, Lower, NormalItems;
    CaseOfLetters(TrimSpace(p.email));
    CaseOfLetters(TrimSpace(p.delivery));
    CaseOfLetters(TrimSpace(p.address.country));
    CaseOfLetters(TrimSpace(p.shipping.currency));
    NormalItemsAt(p.items);
    forall i | i in Signature(p).items
      ensures forall c | c in i.unitPrice.currency :: !('a' <= c <= 'z')
    {
      var k :| 0 <= k < |p.items| && i == NormalItem(p.items[k]);
      CaseOfLetters(TrimSpace(p.items[k].unitPrice.currency));
    }
  }

  // ---------------------------------------------------------------- which payloads are the same

  /** Letter by letter the same, but for the case of the letters A to Z. */
  predicate SameLetters(a: string, b: string) {
    && |a| == |b|
    && forall i | 0 <= i < |a| ::
         || a[i] == b[i]
         || ('A' <= a[i] <= 'Z' && b[i] as int == a[i] as int + 32)
         || ('A' <= b[i] <= 'Z' && a[i] as int == b[i] as int + 32)
  }

  lemma SameLetter(c: char, d: char)
    ensures LowerChar(c) == LowerChar(d) <==> SameLetters([c], [d])
    ensures UpperChar(c) == UpperChar(d) <==> SameLetters([c], [d])
  {
    assert SameLetters([c], [d]) <==>
      || c == d
      || ('A' <= c <= 'Z' && d as int == c as int + 32)
      || ('A' <= d <= 'Z' && c as int == d as int + 32) by {
      assert [c][0] == c && [d][0] == d;
    }
  }

  lemma SameLettersMore(a: string, b: string)
    requires a != "" && b != ""
    ensures SameLetters(a, b) <==> SameLetters([a[0]], [b[0]]) && SameLetters(a[1..], b[1..])
  {
    if SameLetters([a[0]], [b[0]]) && SameLetters(a[1..], b[1..]) {
      assert [a[0]][0] == a[0] && [b[0]][0] == b[0];
      assert forall i | 0 < i < |a| :: a[i] == a[1..][i - 1] && b[i] == b[1..][i - 1];
    }
  }

  /** Folding either way forgets the case of letters and nothing else. */
  lemma {:induction false} CaseForgets(a: string, b: string)
    ensures Lower(a) == Lower(b) <==> SameLetters(a, b)
    ensures Upper(a) == Upper(b) <==> SameLetters(a, b)
    decreases |a|
  {
    hide LowerChar, UpperChar, SameLetters;
    CaseKeeps(a);
    CaseKeeps(b);
    if |a| != |b| {
      LettersAreAsMany(a, b);
    } else if a == "" {
      AlreadySame(a);
    } else {
      SameLetter(a[0], b[0]);
      SameLettersMore(a, b);
      CaseForgets(a[1..], b[1..]);
      assert Lower(a)[1..] == Lower(a[1..]) && Lower(b)[1..] == Lower(b[1..]);
      assert Upper(a)[1..] == Upper(a[1..]) && Upper(b)[1..] == Upper(b[1..]);
    }
  }

  lemma LettersAreAsMany(a: string, b: string)
    ensures SameLetters(a, b) ==> |a| == |b|
  {
  }

  lemma AlreadySame(a: string)
    ensures SameLetters(a, a)
  {
  }

  /** Currencies and countries are the same whatever their case and the white space around them. */
  predicate SameCode(a: string, b: string) {
    SameLetters(TrimSpace(a), TrimSpace(b))
  }

  predicate SameMoney(m: Money, n: Money) {
    m.amount == n.amount && SameCode(m.currency, n.currency)
  }

  /** Free shipping in Australian dollars, which is also what no shipping at all stands for. */
  predicate Free(m: Money) {
    m.amount == 0 && (Blank(m.currency) || SameCode(m.currency, "AUD"))
  }

  predicate SameItem(i: Item, j: Item) {
    && TrimSpace(i.productID) == TrimSpace(j.productID)
    && TrimSpace(i.sku) == TrimSpace(j.sku)
    && TrimSpace(i.title) == TrimSpace(j.title)
    && i.quantity == j.quantity
    && SameMoney(i.unitPrice, j.unitPrice)
  }

  predicate SameAddress(a: Address, b: Address) {
    && TrimSpace(a.name) == TrimSpace(b.name)
    && TrimSpace(a.line1) == TrimSpace(b.line1)
    && TrimSpace(a.line2) == TrimSpace(b.line2)
    && TrimSpace(a.city) == TrimSpace(b.city)
    && TrimSpace(a.region) == TrimSpace(b.region)
    && TrimSpace(a.postalCode) == TrimSpace(b.postalCode)
    && SameCode(a.country, b.country)
  }

  predicate SameItems(xs: seq<Item>, ys: seq<Item>) {
    |xs| == |ys| && forall i | 0 <= i < |xs| :: SameItem(xs[i], ys[i])
  }

  predicate SamePayload(p: Payload, q: Payload) {
    && SameCode(p.email, q.email)
    && SameCode(p.delivery, q.delivery)
    && SameItems(p.items, q.items)
    && SameAddress(p.address, q.address)
    && (SameMoney(p.shipping, q.shipping) || (Free(p.shipping) && Free(q.shipping)))
  }

  lemma CodesMeet(a: string, b: string)
    ensures Lower(TrimSpace(a)) == Lower(TrimSpace(b)) <==> SameCode(a, b)
    ensures Upper(TrimSpace(a)) == Upper(TrimSpace(b)) <==> SameCode(a, b)
  {
    hide TrimSpace, Lower, Upper, SameLetters;
    CaseForgets(TrimSpace(a), TrimSpace(b));
  }

  lemma ItemsMeet(i: Item, j: Item)
    ensures NormalItem(i) == NormalItem(j) <==> SameItem(i, j)
  {
    hide TrimSpace, Upper, SameCode;
    CodesMeet(i.unitPrice.currency, j.unitPrice.currency);
  }

  lemma ItemListsMeet(xs: seq<Item>, ys: seq<Item>)
    ensures NormalItems(xs) == NormalItems(ys) <==> SameItems(xs, ys)
  {
    hide NormalItem, SameItem, NormalItems;
    NormalItemsAt(xs);
    NormalItemsAt(ys);
    if |xs| == |ys| {
      forall i | 0 <= i < |xs|
        ensures NormalItem(xs[i]) == NormalItem(ys[i]) <==> SameItem(xs[i], ys[i])
      {
        ItemsMeet(xs[i], ys[i]);
      }
      if SameItems(xs, ys) {
        assert forall i | 0 <= i < |xs| :: NormalItems(xs)[i] == NormalItems(ys)[i];
      } else {
        var i :| 0 <= i < |xs| && !SameItem(xs[i], ys[i]);
        assert NormalItems(xs)[i] != NormalItems(ys)[i];
      }
    }
  }

  lemma AddressesMeet(a: Address, b: Address)
    ensures NormalAddress(a) == NormalAddress(b) <==> SameAddress(a, b)
  {
    hide TrimSpace, Upper, SameCode;
    CodesMeet(a.country, b.country);
  }

  lemma FreeIsAud(m: Money)
    ensures NormalShipping(m) == Money(0, "AUD") <==> Free(m)
    ensures !Free(m) ==> NormalShipping(m) == NormalMoney(m)
  {
    hide TrimSpace, Upper, SameCode;
    AudIsNormal();
    CodesMeet(m.currency, "AUD");
    BlankText(m.currency);
    UpperEmpty(TrimSpace(m.currency));
  }

  lemma UpperEmpty(s: string)
    ensures Upper(s) == "" <==> s == ""
  {
  }

  lemma ShippingsMeet(m: Money, n: Money)
    ensures NormalShipping(m) == NormalShipping(n) <==> SameMoney(m, n) || (Free(m) && Free(n))
  {
    hide TrimSpace, Upper, SameCode, Free;
    FreeIsAud(m);
    FreeIsAud(n);
    CodesMeet(m.currency, n.currency);
  }

  /** Two requests have one signature if and only if they ask for the same: quantities and amounts are compared as
      they are, texts without the white space around them, and codes, addresses of mail and delivery without their
      case. */
  lemma SameSignature(p: Payload, q: Payload)
    ensures Signature(p) == Signature(q) <==> SamePayload(p, q)
  {
    hide TrimSpace, Upper, Lower, SameCode, NormalItems, SameItems, NormalAddress, SameAddress, SameMoney, Free,
         NormalShipping;
    CodesMeet(p.email, q.email);
    CodesMeet(p.delivery, q.delivery);
    ItemListsMeet(p.items, q.items);
    AddressesMeet(p.address, q.address);
    ShippingsMeet(p.shipping, q.shipping);
  }

  // ---------------------------------------------------------------- the key

  /** What the request says about its tenant: one, none, or something that is refused. */
  datatype Scope = Scoped(tenant: string) | Unscoped | BadTenant

  function Prefix(s: Scope): string {
    if s.Scoped? then s.tenant else "public"
  }

  function ReplayKey(s: Scope, idempotencyKey: string): string {
    var k := TrimSpace(idempotencyKey);
    if k == "" then "" else Prefix(s) + ":" + k
  }

  /** Under one prefix two requests share a key exactly when their trimmed keys are the same. */
  lemma SamePrefixKeys(s: Scope, k: string, t: Scope, m: string)
    requires Prefix(s) == Prefix(t)
    ensures ReplayKey(s, k) == ReplayKey(t, m) <==> TrimSpace(k) == TrimSpace(m)
  {
    hide TrimSpace;
    var a, b := ReplayKey(s, k), ReplayKey(t, m);
    if TrimSpace(k) != "" && TrimSpace(m) != "" {
      assert a[|Prefix(s)| + 1..] == TrimSpace(k) && b[|Prefix(s)| + 1..] == TrimSpace(m);
    }
  }

  /** `q` goes on after `p` with a colon, and what follows the colon is no white space. */
  predicate Opens(p: string, q: string) {
    p + ":" <= q && (|p| + 1 < |q| ==> !IsSpace(q[|p| + 1]))
  }

  /** Some request of the one scope and some request of the other share a key. */
  ghost predicate KeysMeet(s: Scope, t: Scope) {
    exists k: string, m: string :: ReplayKey(s, k) == ReplayKey(t, m) != ""
  }

  lemma MeetingOpens(s: Scope, k: string, t: Scope, m: string)
    requires ReplayKey(s, k) == ReplayKey(t, m) != "" && Prefix(s) != Prefix(t) && |Prefix(s)| <= |Prefix(t)|
    ensures Opens(Prefix(s), Prefix(t))
  {
    hide TrimSpace, IsSpace;
    var p, q, key := Prefix(s), Prefix(t), ReplayKey(s, k);
    var _, _ := TrimSpaceTrims(k);
    assert key[..|p|] == p && key[|p|] == ':' && key[|p| + 1] == TrimSpace(k)[0];
    assert key[..|q|] == q;
    assert |p| == |q| ==> p == q;
    assert q[..|p|] == key[..|p|];
  }

  lemma OpensMeets(s: Scope, t: Scope)
    requires Opens(Prefix(s), Prefix(t))
    ensures KeysMeet(s, t)
  {
    hide TrimSpace, IsSpace;
    var p, q := Prefix(s), Prefix(t);
    var k := q[|p| + 1..] + ":" + "k";
    ColonAndKeyAreNoSpace();
    TrimmedStays(k);
    TrimmedStays("k");
    assert p + ":" + k == q + ":" + "k";
    assert ReplayKey(s, k) == ReplayKey(t, "k") != "";
  }

  lemma ColonAndKeyAreNoSpace()
    ensures !IsSpace(':') && !IsSpace('k')
  {
  }

  /** Scopes with different prefixes can share a key if and only if one prefix goes on after the other with a
      colon and no white space behind it. */
  lemma KeysMeetExactly(s: Scope, t: Scope)
    requires Prefix(s) != Prefix(t)
    ensures KeysMeet(s, t) <==> Opens(Prefix(s), Prefix(t)) || Opens(Prefix(t), Prefix(s))
  {
    hide TrimSpace, IsSpace, Opens, ReplayKey;
    if KeysMeet(s, t) {
      var k: string, m: string :| ReplayKey(s, k) == ReplayKey(t, m) != "";
      if |Prefix(s)| <= |Prefix(t)| {
        MeetingOpens(s, k, t, m);
      } else {
        MeetingOpens(t, m, s, k);
      }
    } else if Opens(Prefix(s), Prefix(t)) {
      OpensMeets(s, t);
    } else if Opens(Prefix(t), Prefix(s)) {
      OpensMeets(t, s);
    }
  }

  /** With a colon in a tenant id, or for a tenant called "public", two scopes can meet in one key. */
  lemma KeysCanMeet()
    ensures exists a: Scope, b: Scope, k: string, m: string ::
          a.Scoped? && b.Scoped? && a != b && ReplayKey(a, k) == ReplayKey(b, m) != ""
    ensures exists k: string :: ReplayKey(Scoped("public"), k) == ReplayKey(Unscoped, k) != ""
  {
    hide TrimSpace;
    TrimmedStays("k");
    TrimmedStays("b:k");
    assert "a:b" + ":" + "k" == "a" + ":" + "b:k";
    assert ReplayKey(Scoped("a:b"), "k") == ReplayKey(Scoped("a"), "b:k") != "";
    assert Scoped("a:b") != Scoped("a") by { assert |"a:b"| != |"a"|; }
    assert ReplayKey(Scoped("public"), "k") == ReplayKey(Unscoped, "k") != "";
  }

  // ---------------------------------------------------------------- one request

  datatype Order = Order(id: int, content: Payload)

  datatype Entry = Entry(order: Order, signature: Payload)

  /** A decoded request, and what the domain and the repository answer: the input is valid, `NewOrder` makes an order
      with a fresh id, the repository stores it. */
  datatype Request = Request(payload: Payload, idempotencyKey: string, scope: Scope, valid: bool, made: Option<Order>,
      stores: bool)

  function KeyOf(r: Request): string {
    ReplayKey(r.scope, r.idempotencyKey)
  }

  /** An order in the repository, with the key it was created under. */
  datatype Stored = Stored(order: Order, key: string)

  datatype State = State(replay: map<string, Entry>, orders: seq<Stored>)

  datatype Reply = Created(order: Order) | Invalid | Conflict | NotStored

  function Create(s: State, r: Request): (State, Reply) {
    var key := KeyOf(r);
    if !r.valid then (s, Invalid)
    else if key != "" && key in s.replay then
      (s, if s.replay[key].signature != Signature(r.payload) then Conflict else Created(s.replay[key].order))
    else if r.made.None? then (s, Invalid)
    else if !r.stores then (s, NotStored)
    else
      (State(if key != "" then s.replay[key := Entry(r.made.value, Signature(r.payload))] else s.replay,
             s.orders + [Stored(r.made.value, key)]), Created(r.made.value))
  }

  class Server {
    var orderCreateReplay: map<string, Entry>
    var orderRepo: seq<Stored>

    ghost function View(): State
      reads this
    {
      State(orderCreateReplay, orderRepo)
    }

    constructor ()
      ensures View() == State(map[], [])
    {
      orderCreateReplay, orderRepo := map[], [];
    }

    /** `createPersistedOrder`; everything after the key is computed runs under one lock. */
    method CreatePersistedOrder(r: Request) returns (reply: Reply)
      modifies this
      ensures (View(), reply) == Create(old(View()), r)
    {
      if !r.valid {
        return Invalid;
      }
      var signature := OrderCreateReplaySignature(r.payload);
      var key := ReplayKey(r.scope, r.idempotencyKey);
      if key != "" && key in orderCreateReplay {
        var entry := orderCreateReplay[key];
        if entry.signature != signature {
          return Conflict;
        }
        return Created(entry.order);
      }
      if r.made.None? {
        return Invalid;
      }
      if !r.stores {
        return NotStored;
      }
      orderRepo := orderRepo + [Stored(r.made.value, key)];
      if key != "" {
        orderCreateReplay := orderCreateReplay[key := Entry(r.made.value, signature)];
      }
      return Created(r.made.value);
    }
  }

  // ---------------------------------------------------------------- runs

  function Run(s: State, rs: seq<Request>): State
    decreases |rs|
  {
    if rs == [] then s else Run(Create(s, rs[0]).0, rs[1..])
  }

  /** The replay table lists the one stored order of every non-empty key. */
  ghost predicate OncePerKey(s: State) {
    && "" !in s.replay
    && (forall i, j | 0 <= i < j < |s.orders| :: s.orders[i].key != "" ==> s.orders[i].key != s.orders[j].key)
    && (forall i | 0 <= i < |s.orders| :: s.orders[i].key != "" ==>
          s.orders[i].key in s.replay && s.replay[s.orders[i].key].order == s.orders[i].order)
    && (forall k | k in s.replay :: exists i | 0 <= i < |s.orders| :: s.orders[i].key == k)
  }

  lemma CreateKeepsOnce(s: State, r: Request)
    requires OncePerKey(s)
    ensures OncePerKey(Create(s, r).0)
  {
    hide KeyOf, Signature;
    var next := Create(s, r).0;
    if next != s {
      var n := |s.orders|;
      assert next.orders[..n] == s.orders && next.orders[n].key == KeyOf(r);
      forall k | k in next.replay
        ensures exists i | 0 <= i < |next.orders| :: next.orders[i].key == k
      {
        if k in s.replay {
          var i :| 0 <= i < |s.orders| && s.orders[i].key == k;
          assert next.orders[i].key == k;
        } else {
          assert next.orders[n].key == k;
        }
      }
    }
  }

  /** Entries are never altered or removed, and stored orders stay. */
  lemma {:induction false} EntriesStay(s: State, rs: seq<Request>, key: string)
    ensures key in s.replay ==> key in Run(s, rs).replay && Run(s, rs).replay[key] == s.replay[key]
    ensures s.orders <= Run(s, rs).orders
    decreases |rs|
  {
    hide KeyOf, Signature;
    if rs != [] {
      EntriesStay(Create(s, rs[0]).0, rs[1..], key);
    }
  }

  lemma {:induction false} RunKeepsOnce(s: State, rs: seq<Request>)
    requires OncePerKey(s)
    ensures OncePerKey(Run(s, rs))
    decreases |rs|
  {
    hide OncePerKey, Create;
    if rs != [] {
      CreateKeepsOnce(s, rs[0]);
      RunKeepsOnce(Create(s, rs[0]).0, rs[1..]);
    }
  }

  /** Whatever requests come in between, every success under a key returns the one order stored under it, and
      every other payload is refused. */
  lemma OneOrderPerKey(before: seq<Request>, r: Request, between: seq<Request>, again: Request)
    requires KeyOf(r) != "" && KeyOf(again) == KeyOf(r)
    requires Create(Run(State(map[], []), before), r).1.Created?
    ensures var first := Create(Run(State(map[], []), before), r);
            var later := Run(first.0, between);
            var reply := Create(later, again);
            && reply.0 == later
            && reply.1 == (if !again.valid then Invalid
                           else if SamePayload(again.payload, r.payload) then Created(first.1.order)
                           else Conflict)
            && (exists i | 0 <= i < |later.orders| :: later.orders[i] == Stored(first.1.order, KeyOf(r)))
            && (forall i, j | 0 <= i < |later.orders| && 0 <= j < |later.orders| ::
                  later.orders[i].key == KeyOf(r) && later.orders[j].key == KeyOf(r) ==> i == j)
  {
    hide KeyOf, Signature, OncePerKey, SamePayload;
    SameSignature(again.payload, r.payload);
    var s := Run(State(map[], []), before);
    Nothing();
    RunKeepsOnce(State(map[], []), before);
    var first := Create(s, r);
    Listed(s, r);
    var later := Run(first.0, between);
    EntriesStay(first.0, between, KeyOf(r));
    CreateKeepsOnce(s, r);
    RunKeepsOnce(first.0, between);
    OnlyOne(later, KeyOf(r));
  }

  lemma Nothing()
    ensures OncePerKey(State(map[], []))
  {
  }

  /** After a success the entry holds the order and the signature of the request. */
  lemma Listed(s: State, r: Request)
    requires KeyOf(r) != "" && Create(s, r).1.Created?
    ensures var next := Create(s, r);
            KeyOf(r) in next.0.replay && next.0.replay[KeyOf(r)] == Entry(next.1.order, Signature(r.payload))
  {
    hide KeyOf, Signature;
  }

  lemma OnlyOne(s: State, key: string)
    requires OncePerKey(s) && key in s.replay
    ensures exists i | 0 <= i < |s.orders| :: s.orders[i] == Stored(s.replay[key].order, key)
    ensures forall i, j | 0 <= i < |s.orders| && 0 <= j < |s.orders| ::
          s.orders[i].key == key && s.orders[j].key == key ==> i == j
  {
    var i :| 0 <= i < |s.orders| && s.orders[i].key == key;
    assert s.orders[i] == Stored(s.replay[key].order, key);
  }

  /** A request without a key, or with a key no success had before, is answered by the domain and the repository: it
      stores the one order that was made, under its key, and lists it if there is a key. */
  lemma FreshRequest(s: State, r: Request)
    requires KeyOf(r) == "" || KeyOf(r) !in s.replay
    ensures var next := Create(s, r);
            && (next.1 == Invalid <==> !r.valid || r.made.None?)
            && (next.1 == NotStored <==> r.valid && r.made.Some? && !r.stores)
            && (next.1.Created? ==>
                  && next.1 == Created(r.made.value)
                  && next.0.orders == s.orders + [Stored(r.made.value, KeyOf(r))]
                  && next.0.replay.Keys == s.replay.Keys + (if KeyOf(r) == "" then {} else {KeyOf(r)})
                  && (KeyOf(r) != "" ==> next.0.replay[KeyOf(r)] == Entry(r.made.value, Signature(r.payload)))
                  && forall k | k in s.replay :: next.0.replay[k] == s.replay[k])
  {
    hide KeyOf, Signature;
  }

  /** A request that did not succeed leaves table and repository as they were, so its key is still free if it was
      free. */
  lemma FailureLeavesKeyFree(s: State, r: Request)
    ensures !Create(s, r).1.Created? ==> Create(s, r).0 == s
    ensures KeyOf(r) != "" && KeyOf(r) !in s.replay ==>
          (KeyOf(r) in Create(s, r).0.replay <==> r.valid && r.made.Some? && r.stores)
    ensures KeyOf(r) == "" ==> (Create(s, r).1.Created? <==> r.valid && r.made.Some? && r.stores)
  {
    hide KeyOf, Signature;
  }
}
