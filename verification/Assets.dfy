/** The asset-transfer contract as a machine over the ledger, and the finite map it means to
    be. */
module Assets {
  import opened Wire
  import opened Utf8
  import opened Paging

  type U32 = n: int | 0 <= n < 0x1_0000_0000
  type U64 = n: int | 0 <= n < 0x1_0000_0000_0000_0000

  datatype Asset = Asset(id: string, color: string, size: U32, owner: string, value: U64)

  /** JSON is library behaviour: decoding undoes encoding, and no encoding is empty. */
  datatype Json = Json(enc: Asset -> Bytes, dec: Bytes -> Option<Asset>)

  ghost predicate Lawful(j: Json) {
    forall a :: |j.enc(a)| > 0 && j.dec(j.enc(a)) == Some(a)
  }

  /** World state, how many calls the peer has been asked, and the event slot. */
  datatype Ledger = Ledger(state: map<string, Bytes>, calls: nat, event: Option<(string, Bytes)>)

  /** Which calls the peer serves; the others come back as errors without effect. */
  type Peer = nat -> bool

  datatype Out<T> = Out(result: Result<T>, ledger: Ledger)

  function Stored(state: map<string, Bytes>, key: string): Bytes {
    if key in state then state[key] else []
  }

  function Get(p: Peer, l: Ledger, key: string): Out<Bytes> {
    Out(if p(l.calls) then Ok(Stored(l.state, key)) else Err(PeerError([])), l.(calls := l.calls + 1))
  }

  function Put(p: Peer, l: Ledger, key: string, value: Bytes): Out<()> {
    if key == "" then Out(Err(InvalidArgument), l)
    else if p(l.calls) then Out(Ok(()), l.(calls := l.calls + 1, state := l.state[key := value]))
    else Out(Err(PeerError([])), l.(calls := l.calls + 1))
  }

  function Del(p: Peer, l: Ledger, key: string): Out<()> {
    if p(l.calls) then Out(Ok(()), l.(calls := l.calls + 1, state := l.state - {key}))
    else Out(Err(PeerError([])), l.(calls := l.calls + 1))
  }

  class Stub {
    const peer: Peer
    var state: map<string, Bytes>
    var calls: nat
    var event: Option<(string, Bytes)>

    constructor (peer: Peer, l: Ledger)
      ensures this.peer == peer && View() == l
    {
      this.peer := peer;
      state, calls, event := l.state, l.calls, l.event;
    }

    function View(): Ledger
      reads this
    {
      Ledger(state, calls, event)
    }

    method GetState(key: string) returns (r: Result<Bytes>)
      modifies this
      ensures Out(r, View()) == Get(peer, old(View()), key)
    {
      var served := peer(calls);
      calls := calls + 1;
      r := if served then Ok(Stored(state, key)) else Err(PeerError([]));
    }

    method PutState(key: string, value: Bytes) returns (r: Result<()>)
      modifies this
      ensures Out(r, View()) == Put(peer, old(View()), key, value)
    {
      if key == "" {
        return Err(InvalidArgument);
      }
      var served := peer(calls);
      calls := calls + 1;
      if served {
        state := state[key := value];
      }
      r := if served then Ok(()) else Err(PeerError([]));
    }

    method DelState(key: string) returns (r: Result<()>)
      modifies this
      ensures Out(r, View()) == Del(peer, old(View()), key)
    {
      var served := peer(calls);
      calls := calls + 1;
      if served {
        state := state - {key};
      }
      r := if served then Ok(()) else Err(PeerError([]));
    }

    method SetEvent(name: string, payload: Bytes) returns (r: Result<()>)
      modifies this
      ensures r == if name == "" then Err(InvalidArgument) else Ok(())
      ensures View() == if name == "" then old(View()) else old(View()).(event := Some((name, payload)))
    {
      if name == "" {
        return Err(InvalidArgument);
      }
      event := Some((name, payload));
      r := Ok(());
    }
  }

  // ---- the transactions ----

  function GetAsset(j: Json, p: Peer, l: Ledger, id: string): Out<Asset> {
    var got := Get(p, l, id);
    match got.result
    case Err(e) => Out(Err(e), got.ledger)
    case Ok(bytes) =>
      if bytes == [] then Out(Err(InvalidArgument), got.ledger)
      else Out(match j.dec(bytes) case Some(a) => Ok(a) case None => Err(InvalidArgument), got.ledger)
  }

  function PutAsset(j: Json, p: Peer, l: Ledger, a: Asset): Out<()> {
    Put(p, l, a.id, j.enc(a))
  }

  function CreateAsset(j: Json, p: Peer, l: Ledger, a: Asset): Out<()> {
    var got := Get(p, l, a.id);
    match got.result
    case Err(e) => Out(Err(e), got.ledger)
    case Ok(bytes) => if bytes != [] then Out(Err(InvalidArgument), got.ledger) else PutAsset(j, p, got.ledger, a)
  }

  function UpdateAsset(j: Json, p: Peer, l: Ledger, a: Asset): Out<()> {
    var got := GetAsset(j, p, l, a.id);
    if got.result.Err? then Out(Err(got.result.error), got.ledger) else PutAsset(j, p, got.ledger, a)
  }

  function DeleteAsset(j: Json, p: Peer, l: Ledger, id: string): Out<()> {
    var got := GetAsset(j, p, l, id);
    if got.result.Err? then Out(Err(got.result.error), got.ledger) else Del(p, got.ledger, id)
  }

  function AssetExists(j: Json, p: Peer, l: Ledger, id: string): Out<bool> {
    var got := Get(p, l, id);
    Out(if got.result.Err? then Err(got.result.error) else Ok(got.result.value != []), got.ledger)
  }

  /** The record is written back under its own id, whatever key it was read from. */
  function TransferAsset(j: Json, p: Peer, l: Ledger, id: string, owner: string): Out<string> {
    var got := GetAsset(j, p, l, id);
    if got.result.Err? then Out(Err(got.result.error), got.ledger)
    else
      var a := got.result.value;
      var put := PutAsset(j, p, got.ledger, a.(owner := owner));
      if put.result.Err? then Out(Err(put.result.error), put.ledger)
      else Out(Ok(a.owner), put.ledger.(event := Some(("AssetTransferred", j.enc(a.(owner := owner))))))
  }

  function PutAll(j: Json, p: Peer, l: Ledger, assets: seq<Asset>): Out<()>
    decreases |assets|
  {
    if assets == [] then Out(Ok(()), l)
    else
      var put := PutAsset(j, p, l, assets[0]);
      if put.result.Err? then put else PutAll(j, p, put.ledger, assets[1..])
  }

  function Seed(): seq<Asset> {
    [ Asset("asset1", "blue", 5, "Tomoko", 300), Asset("asset2", "red", 5, "Brad", 400),
      Asset("asset3", "green", 10, "Jin Soo", 500), Asset("asset4", "yellow", 10, "Max", 600),
      Asset("asset5", "black", 15, "Adriana", 700), Asset("asset6", "white", 15, "Michel", 800) ]
  }

  class AssetContract {
    const j: Json

    constructor (j: Json)
      ensures this.j == j
    {
      this.j := j;
    }

    method ReadAsset(ctx: Stub, id: string) returns (r: Result<Asset>)
      modifies ctx
      ensures Out(r, ctx.View()) == GetAsset(j, ctx.peer, old(ctx.View()), id)
    {
      var bytes := ctx.GetState(id);
      if bytes.Err? {
        return Err(bytes.error);
      }
      if bytes.value == [] {
        return Err(InvalidArgument);
      }
      var a := j.dec(bytes.value);
      r := if a.Some? then Ok(a.value) else Err(InvalidArgument);
    }

    method Save(ctx: Stub, a: Asset) returns (r: Result<()>)
      modifies ctx
      ensures Out(r, ctx.View()) == PutAsset(j, ctx.peer, old(ctx.View()), a)
    {
      r := ctx.PutState(a.id, j.enc(a));
    }

    method InitLedger(ctx: Stub) returns (r: Result<()>)
      modifies ctx
      ensures Out(r, ctx.View()) == PutAll(j, ctx.peer, old(ctx.View()), Seed())
    {
      var assets := Seed();
      for i := 0 to |assets|
        invariant PutAll(j, ctx.peer, old(ctx.View()), assets) == PutAll(j, ctx.peer, ctx.View(), assets[i..])
      {
        var put := Save(ctx, assets[i]);
        if put.Err? {
          return put;
        }
      }
      r := Ok(());
    }

    method Create(ctx: Stub, a: Asset) returns (r: Result<()>)
      modifies ctx
      ensures Out(r, ctx.View()) == CreateAsset(j, ctx.peer, old(ctx.View()), a)
    {
      var bytes := ctx.GetState(a.id);
      if bytes.Err? {
        return Err(bytes.error);
      }
      if bytes.value != [] {
        return Err(InvalidArgument);
      }
      r := Save(ctx, a);
    }

    method Update(ctx: Stub, a: Asset) returns (r: Result<()>)
      modifies ctx
      ensures Out(r, ctx.View()) == UpdateAsset(j, ctx.peer, old(ctx.View()), a)
    {
      var existing := ReadAsset(ctx, a.id);
      if existing.Err? {
        return Err(existing.error);
      }
      r := Save(ctx, a);
    }

    method Delete(ctx: Stub, id: string) returns (r: Result<()>)
      modifies ctx
      ensures Out(r, ctx.View()) == DeleteAsset(j, ctx.peer, old(ctx.View()), id)
    {
      var existing := ReadAsset(ctx, id);
      if existing.Err? {
        return Err(existing.error);
      }
      r := ctx.DelState(id);
    }

    method Exists(ctx: Stub, id: string) returns (r: Result<bool>)
      modifies ctx
      ensures Out(r, ctx.View()) == AssetExists(j, ctx.peer, old(ctx.View()), id)
    {
      var bytes := ctx.GetState(id);
      r := if bytes.Err? then Err(bytes.error) else Ok(bytes.value != []);
    }

    method Transfer(ctx: Stub, id: string, owner: string) returns (r: Result<string>)
      modifies ctx
      ensures Out(r, ctx.View()) == TransferAsset(j, ctx.peer, old(ctx.View()), id, owner)
    {
      var got := ReadAsset(ctx, id);
      if got.Err? {
        return Err(got.error);
      }
      var asset := got.value;
      var oldOwner := asset.owner;
      asset := asset.(owner := owner);
      var put := Save(ctx, asset);
      if put.Err? {
        return Err(put.error);
      }
      var _ := ctx.SetEvent("AssetTransferred", j.enc(asset));
      r := Ok(oldOwner);
    }

    /** Range over everything, collected through the paging iterator; rows that do not
        decode are skipped. */
    method GetAllAssets(peer: PeerCursor, decode: Bytes -> Option<Kv>) returns (r: Result<seq<(string, Asset)>>)
      modifies peer
      ensures var q := QueryAll(decode, old(peer.View()), "", "");
        && r == (if q.0.Ok? then Ok(Rows(j, q.0.value)) else Err(q.0.error))
        && peer.View() == q.1
    {
      var iter := StateByRange(peer, decode, "", "");
      if iter.Err? {
        return Err(iter.error);
      }
      var kvs := iter.value.CollectRemaining();
      if kvs.Err? {
        return Err(kvs.error);
      }
      var rows := FilterRows(kvs.value);
      r := Ok(rows);
    }

    method FilterRows(kvs: seq<Kv>) returns (rows: seq<(string, Asset)>)
      ensures rows == Rows(j, kvs)
    {
      rows := [];
      for i := 0 to |kvs|
        invariant rows + Rows(j, kvs[i..]) == Rows(j, kvs)
      {
        assert kvs[i..][0] == kvs[i] && kvs[i..][1..] == kvs[i + 1..];
        var a := j.dec(kvs[i].value);
        if a.Some? {
          assert rows + ([(kvs[i].key, a.value)] + Rows(j, kvs[i + 1..]))
              == (rows + [(kvs[i].key, a.value)]) + Rows(j, kvs[i + 1..]);
          rows := rows + [(kvs[i].key, a.value)];
        }
      }
      assert kvs[|kvs|..] == [];
    }
  }

  function Rows(j: Json, kvs: seq<Kv>): seq<(string, Asset)> {
    if kvs == [] then []
    else
      match j.dec(kvs[0].value)
      case Some(a) => [(kvs[0].key, a)] + Rows(j, kvs[1..])
      case None => Rows(j, kvs[1..])
  }

  // ---- calls and runs ----

  datatype Call =
    | Init
    | Create(a: Asset)
    | Read(id: string)
    | Update(a: Asset)
    | Delete(id: string)
    | Exists(id: string)
    | Transfer(id: string, owner: string)

  datatype Output = Nothing | Record(a: Asset) | Flag(b: bool) | Owner(name: string)

  function Lift<T>(r: Result<T>, f: T -> Output): Result<Output> {
    match r case Ok(v) => Ok(f(v)) case Err(e) => Err(e)
  }

  function Execute(j: Json, p: Peer, l: Ledger, c: Call): Out<Output> {
    match c
    case Init => var o := PutAll(j, p, l, Seed()); Out(Lift(o.result, _ => Nothing), o.ledger)
    case Create(a) => var o := CreateAsset(j, p, l, a); Out(Lift(o.result, _ => Nothing), o.ledger)
    case Read(id) => var o := GetAsset(j, p, l, id); Out(Lift(o.result, a => Record(a)), o.ledger)
    case Update(a) => var o := UpdateAsset(j, p, l, a); Out(Lift(o.result, _ => Nothing), o.ledger)
    case Delete(id) => var o := DeleteAsset(j, p, l, id); Out(Lift(o.result, _ => Nothing), o.ledger)
    case Exists(id) => var o := AssetExists(j, p, l, id); Out(Lift(o.result, b => Flag(b)), o.ledger)
    case Transfer(id, owner) => var o := TransferAsset(j, p, l, id, owner); Out(Lift(o.result, x => Owner(x)), o.ledger)
  }

  /** The invariant: every record decodes, and to an asset whose id is its key. */
  ghost predicate LedgerOk(j: Json, state: map<string, Bytes>) {
    forall key :: key in state ==>
      && key != "" && state[key] != []
      && j.dec(state[key]).Some? && j.dec(state[key]).value.id == key
  }

  /** The map of assets the ledger stands for. */
  function Meaning(j: Json, state: map<string, Bytes>): map<string, Asset> {
    map key | key in state && j.dec(state[key]).Some? :: j.dec(state[key]).value
  }

  /** What each call means to be. */
  function Intended(m: map<string, Asset>, c: Call): (Result<Output>, map<string, Asset>) {
    match c
    case Init => (Ok(Nothing), AddAll(m, Seed()))
    case Create(a) => if a.id in m || a.id == "" then (Err(InvalidArgument), m) else (Ok(Nothing), m[a.id := a])
    case Read(id) => if id in m then (Ok(Record(m[id])), m) else (Err(InvalidArgument), m)
    case Update(a) => if a.id in m then (Ok(Nothing), m[a.id := a]) else (Err(InvalidArgument), m)
    case Delete(id) => if id in m then (Ok(Nothing), m - {id}) else (Err(InvalidArgument), m)
    case Exists(id) => (Ok(Flag(id in m)), m)
    case Transfer(id, owner) =>
      if id in m then (Ok(Owner(m[id].owner)), m[id := m[id].(owner := owner)]) else (Err(InvalidArgument), m)
  }

  function AddAll(m: map<string, Asset>, assets: seq<Asset>): map<string, Asset>
    decreases |assets|
  {
    if assets == [] then m else AddAll(m[assets[0].id := assets[0]], assets[1..])
  }

  lemma MeaningPut(j: Json, state: map<string, Bytes>, a: Asset)
    requires Lawful(j) && LedgerOk(j, state) && a.id != ""
    ensures LedgerOk(j, state[a.id := j.enc(a)])
    ensures Meaning(j, state[a.id := j.enc(a)]) == Meaning(j, state)[a.id := a]
  {
    assert |j.enc(a)| > 0 && j.dec(j.enc(a)) == Some(a);
  }

  lemma MeaningDel(j: Json, state: map<string, Bytes>, key: string)
    requires LedgerOk(j, state)
    ensures LedgerOk(j, state - {key}) && Meaning(j, state - {key}) == Meaning(j, state) - {key}
  {
  }

  lemma MeaningGet(j: Json, state: map<string, Bytes>, key: string)
    requires LedgerOk(j, state)
    ensures key in Meaning(j, state) <==> Stored(state, key) != []
    ensures key in Meaning(j, state) ==>
      j.dec(Stored(state, key)) == Some(Meaning(j, state)[key]) && Meaning(j, state)[key].id == key != ""
  {
  }

  ghost predicate Serves(p: Peer) {
    forall n :: p(n)
  }

  /** Only some of the assets, from the front, were written. */
  ghost predicate Partly(m: map<string, Asset>, assets: seq<Asset>, m': map<string, Asset>) {
    exists n: nat :: n < |assets| && m' == AddAll(m, assets[..n])
  }

  /** Seeding writes the whole list, or stops at the peer's refusal after a prefix of it. */
  lemma {:induction false} SeedingMeaning(j: Json, p: Peer, l: Ledger, assets: seq<Asset>)
    requires Lawful(j) && LedgerOk(j, l.state) && forall i :: 0 <= i < |assets| ==> assets[i].id != ""
    ensures var o := PutAll(j, p, l, assets); var m, m' := Meaning(j, l.state), Meaning(j, o.ledger.state);
      && LedgerOk(j, o.ledger.state)
      && (if o.result.Ok? then m' == AddAll(m, assets) else o.result.error.PeerError? && Partly(m, assets, m'))
      && (Serves(p) ==> o.result.Ok?)
    decreases |assets|
  {
    if assets != [] {
      var put := PutAsset(j, p, l, assets[0]);
      if put.result.Ok? {
        MeaningPut(j, l.state, assets[0]);
        SeedingMeaning(j, p, put.ledger, assets[1..]);
        var o, m := PutAll(j, p, l, assets), Meaning(j, put.ledger.state);
        if o.result.Err? {
          var n: nat :| n < |assets| - 1 && Meaning(j, o.ledger.state) == AddAll(m, assets[1..][..n]);
          assert assets[..n + 1][0] == assets[0] && assets[..n + 1][1..] == assets[1..][..n];
          assert Meaning(j, o.ledger.state) == AddAll(Meaning(j, l.state), assets[..n + 1]);
        }
      } else {
        assert AddAll(Meaning(j, l.state), assets[..0]) == Meaning(j, l.state);
      }
    }
  }

  /** Seeding an empty ledger leaves these six assets. */
  lemma SeededMap(j: Json, p: Peer)
    requires Lawful(j) && Serves(p)
    ensures var o := PutAll(j, p, Ledger(map[], 0, None), Seed());
      && o.result.Ok?
      && Meaning(j, o.ledger.state) == map[
           "asset1" := Asset("asset1", "blue", 5, "Tomoko", 300),
           "asset2" := Asset("asset2", "red", 5, "Brad", 400),
           "asset3" := Asset("asset3", "green", 10, "Jin Soo", 500),
           "asset4" := Asset("asset4", "yellow", 10, "Max", 600),
           "asset5" := Asset("asset5", "black", 15, "Adriana", 700),
           "asset6" := Asset("asset6", "white", 15, "Michel", 800)]
  {
    var assets := Seed();
    SeedingMeaning(j, p, Ledger(map[], 0, None), assets);
    assert Meaning(j, map[]) == map[];
    SixAdded(map[], assets);
  }

  lemma SixAdded(m: map<string, Asset>, a: seq<Asset>)
    requires |a| == 6
    ensures AddAll(m, a) ==
      m[a[0].id := a[0]][a[1].id := a[1]][a[2].id := a[2]][a[3].id := a[3]][a[4].id := a[4]][a[5].id := a[5]]
  {
    var m1 := m[a[0].id := a[0]];
    var m2 := m1[a[1].id := a[1]];
    var m3 := m2[a[2].id := a[2]];
    var m4 := m3[a[3].id := a[3]];
    assert AddAll(m, a) == AddAll(m1, a[1..]);
    assert a[1..][1..] == a[2..] && AddAll(m1, a[1..]) == AddAll(m2, a[2..]);
    assert a[2..][1..] == a[3..] && AddAll(m2, a[2..]) == AddAll(m3, a[3..]);
    assert a[3..][1..] == a[4..] && AddAll(m3, a[3..]) == AddAll(m4, a[4..]);
    var m5 := m4[a[4].id := a[4]];
    assert a[4..][1..] == a[5..] && AddAll(m4, a[4..]) == AddAll(m5, a[5..]);
    assert a[5..][1..] == [] && AddAll(m5, a[5..]) == AddAll(m5[a[5].id := a[5]], []);
  }

  /** A call agrees with its intention on its result and on the map it leaves, or it failed
      at the peer, which a serving peer excludes; a call that comes back as an error has
      written nothing and set no event, seeding excepted. */
  ghost predicate Meets(j: Json, p: Peer, l: Ledger, c: Call) {
    var o := Execute(j, p, l, c);
    && LedgerOk(j, o.ledger.state)
    && (|| (o.result, Meaning(j, o.ledger.state)) == Intended(Meaning(j, l.state), c)
        || (!Serves(p) && o.result.Err? && o.result.error.PeerError?))
    && (o.result.Err? && !c.Init? ==> o.ledger.state == l.state && o.ledger.event == l.event)
  }

  lemma SeedMeets(j: Json, p: Peer, l: Ledger)
    requires Lawful(j) && LedgerOk(j, l.state)
    ensures Meets(j, p, l, Call.Init)
  {
    SeedingMeaning(j, p, l, Seed());
  }

  lemma CreateMeets(j: Json, p: Peer, l: Ledger, a: Asset)
    requires Lawful(j) && LedgerOk(j, l.state)
    ensures Meets(j, p, l, Create(a))
  {
    MeaningGet(j, l.state, a.id);
    if a.id != "" { MeaningPut(j, l.state, a); }
  }

  lemma UpdateMeets(j: Json, p: Peer, l: Ledger, a: Asset)
    requires Lawful(j) && LedgerOk(j, l.state)
    ensures Meets(j, p, l, Update(a))
  {
    MeaningGet(j, l.state, a.id);
    if a.id != "" { MeaningPut(j, l.state, a); }
  }

  lemma DeleteMeets(j: Json, p: Peer, l: Ledger, id: string)
    requires Lawful(j) && LedgerOk(j, l.state)
    ensures Meets(j, p, l, Delete(id))
  {
    MeaningGet(j, l.state, id);
    MeaningDel(j, l.state, id);
  }

  lemma TransferMeets(j: Json, p: Peer, l: Ledger, id: string, owner: string)
    requires Lawful(j) && LedgerOk(j, l.state)
    ensures Meets(j, p, l, Transfer(id, owner))
  {
    MeaningGet(j, l.state, id);
    if id in Meaning(j, l.state) {
      MeaningPut(j, l.state, Meaning(j, l.state)[id].(owner := owner));
    }
  }

  lemma CallMeetsIntention(j: Json, p: Peer, l: Ledger, c: Call)
    requires Lawful(j) && LedgerOk(j, l.state)
    ensures Meets(j, p, l, c)
  {
    match c
    case Init => SeedMeets(j, p, l);
    case Create(a) => CreateMeets(j, p, l, a);
    case Read(id) => MeaningGet(j, l.state, id);
    case Update(a) => UpdateMeets(j, p, l, a);
    case Delete(id) => DeleteMeets(j, p, l, id);
    case Exists(id) => MeaningGet(j, l.state, id);
    case Transfer(id, owner) => TransferMeets(j, p, l, id, owner);
  }

  /** A whole history of calls, each with the peer numbering on. */
  function Run(j: Json, p: Peer, l: Ledger, cs: seq<Call>): (seq<Result<Output>>, Ledger)
    decreases |cs|
  {
    if cs == [] then ([], l)
    else
      var o := Execute(j, p, l, cs[0]);
      var rest := Run(j, p, o.ledger, cs[1..]);
      ([o.result] + rest.0, rest.1)
  }

  function IntendedRun(m: map<string, Asset>, cs: seq<Call>): (seq<Result<Output>>, map<string, Asset>)
    decreases |cs|
  {
    if cs == [] then ([], m)
    else
      var o := Intended(m, cs[0]);
      var rest := IntendedRun(o.1, cs[1..]);
      ([o.0] + rest.0, rest.1)
  }

  /** Whatever the peer refuses, every history keeps the ledger well formed. */
  lemma {:induction false} HistoryKeepsLedgerOk(j: Json, p: Peer, l: Ledger, cs: seq<Call>)
    requires Lawful(j) && LedgerOk(j, l.state)
    ensures LedgerOk(j, Run(j, p, l, cs).1.state)
    decreases |cs|
  {
    if cs != [] {
      CallMeetsIntention(j, p, l, cs[0]);
      HistoryKeepsLedgerOk(j, p, Execute(j, p, l, cs[0]).ledger, cs[1..]);
    }
  }

  /** One call as the map sees it: it does what was intended, or the peer failed it; a failed
      call changes nothing, except that failed seeding has added a prefix of its assets. */
  ghost predicate Follows(m: map<string, Asset>, c: Call, r: Result<Output>, m': map<string, Asset>) {
    || (r, m') == Intended(m, c)
    || (r.Err? && r.error.PeerError? && if c.Init? then Partly(m, Seed(), m') else m' == m)
  }

  ghost predicate FollowsAll(m: map<string, Asset>, cs: seq<Call>, rs: seq<Result<Output>>, m': map<string, Asset>)
    decreases |cs|
  {
    if cs == [] then rs == [] && m' == m
    else rs != [] && exists next :: Follows(m, cs[0], rs[0], next) && FollowsAll(next, cs[1..], rs[1..], m')
  }

  lemma CallFollows(j: Json, p: Peer, l: Ledger, c: Call)
    requires Lawful(j) && LedgerOk(j, l.state)
    ensures var o := Execute(j, p, l, c);
      && LedgerOk(j, o.ledger.state)
      && Follows(Meaning(j, l.state), c, o.result, Meaning(j, o.ledger.state))
      && (Serves(p) ==> (o.result, Meaning(j, o.ledger.state)) == Intended(Meaning(j, l.state), c))
  {
    CallMeetsIntention(j, p, l, c);
    if c.Init? {
      SeedingMeaning(j, p, l, Seed());
    }
  }

  /** Whatever the peer refuses, whole histories follow the finite map call by call; with a
      peer that serves every call they return exactly what the map returns and leave a ledger
      that means its final value. */
  lemma {:induction false} HistoryRefinesMap(j: Json, p: Peer, l: Ledger, cs: seq<Call>)
    requires Lawful(j) && LedgerOk(j, l.state)
    ensures FollowsAll(Meaning(j, l.state), cs, Run(j, p, l, cs).0, Meaning(j, Run(j, p, l, cs).1.state))
    ensures Serves(p) ==>
      (Run(j, p, l, cs).0, Meaning(j, Run(j, p, l, cs).1.state)) == IntendedRun(Meaning(j, l.state), cs)
    decreases |cs|
  {
    if cs != [] {
      var o := Execute(j, p, l, cs[0]);
      CallFollows(j, p, l, cs[0]);
      HistoryRefinesMap(j, p, o.ledger, cs[1..]);
      var rs := Run(j, p, l, cs).0;
      assert rs[0] == o.result && rs[1..] == Run(j, p, o.ledger, cs[1..]).0;
    }
  }

  // ---- events ----

  /** The event of a transfer that succeeded on this ledger: the asset with its new owner. */
  function TransferEvent(j: Json, l: Ledger, id: string, owner: string): Option<(string, Bytes)> {
    match j.dec(Stored(l.state, id))
    case Some(a) => Some(("AssetTransferred", j.enc(a.(owner := owner))))
    case None => None
  }

  /** The event after a call that gave `r`. */
  function EventAfter(j: Json, l: Ledger, c: Call, r: Result<Output>): Option<(string, Bytes)> {
    if c.Transfer? && r.Ok? then TransferEvent(j, l, c.id, c.owner) else l.event
  }

  lemma {:induction false} PutAllKeepsEvent(j: Json, p: Peer, l: Ledger, assets: seq<Asset>)
    ensures PutAll(j, p, l, assets).ledger.event == l.event
    decreases |assets|
  {
    if assets != [] {
      PutAllKeepsEvent(j, p, PutAsset(j, p, l, assets[0]).ledger, assets[1..]);
    }
  }

  /** On any ledger and with any peer, a call sets an event if and only if it is a transfer
      that succeeded, and then the one carrying the asset it wrote. */
  lemma OnlyTransfersEmit(j: Json, p: Peer, l: Ledger, c: Call)
    ensures var o := Execute(j, p, l, c);
      && o.ledger.event == EventAfter(j, l, c, o.result)
      && (c.Transfer? && o.result.Ok? ==> o.ledger.event.Some?)
  {
    PutAllKeepsEvent(j, p, l, Seed());
  }

  /** The event of the last transfer that succeeded in a history, or the one before it. */
  function LastEmitted(j: Json, p: Peer, l: Ledger, cs: seq<Call>, before: Option<(string, Bytes)>):
    Option<(string, Bytes)>
    decreases |cs|
  {
    if cs == [] then before
    else
      var o := Execute(j, p, l, cs[0]);
      LastEmitted(j, p, o.ledger, cs[1..],
                  if cs[0].Transfer? && o.result.Ok? then TransferEvent(j, l, cs[0].id, cs[0].owner) else before)
  }

  lemma {:induction false} HistoryEmits(j: Json, p: Peer, l: Ledger, cs: seq<Call>)
    ensures Run(j, p, l, cs).1.event == LastEmitted(j, p, l, cs, l.event)
    decreases |cs|
  {
    if cs != [] {
      OnlyTransfersEmit(j, p, l, cs[0]);
      HistoryEmits(j, p, Execute(j, p, l, cs[0]).ledger, cs[1..]);
    }
  }

  // ---- how often the peer is asked ----

  lemma {:induction false} PutAllRequests(j: Json, p: Peer, l: Ledger, assets: seq<Asset>)
    ensures var o := PutAll(j, p, l, assets);
      && l.calls <= o.ledger.calls <= l.calls + |assets|
      && (o.result.Ok? ==> o.ledger.calls == l.calls + |assets|)
    decreases |assets|
  {
    if assets != [] {
      PutAllRequests(j, p, PutAsset(j, p, l, assets[0]).ledger, assets[1..]);
    }
  }

  /** Reading and asking for existence take one ledger request, and every call that writes a
      record takes two when it succeeds and never more; seeding takes six at most. */
  lemma RequestsMade(j: Json, p: Peer, l: Ledger, c: Call)
    ensures var o := Execute(j, p, l, c); var n := o.ledger.calls - l.calls;
      match c
      case Init => n <= 6 && (o.result.Ok? ==> n == 6)
      case Read(_) => n == 1
      case Exists(_) => n == 1
      case _ => 1 <= n <= 2 && (o.result.Ok? ==> n == 2)
  {
    PutAllRequests(j, p, l, Seed());
  }

  // ---- ledgers the contract did not write ----

  predicate Unreadable(j: Json, l: Ledger, id: string) {
    Stored(l.state, id) == [] || j.dec(Stored(l.state, id)) == None
  }

  /** On any ledger, with a peer that serves the first request: a record that is absent or
      corrupt makes reading, updating, deleting and transferring fail as invalid and leaves
      everything as it was; existence looks at the bytes only; and creation is refused as
      soon as there are any. */
  lemma UnreadableRecordsAreRefused(j: Json, p: Peer, l: Ledger, c: Call, id: string)
    requires p(l.calls)
    requires c == Read(id) || c == Delete(id) || (c.Update? && c.a.id == id) || (c.Transfer? && c.id == id)
             || c == Exists(id) || (c.Create? && c.a.id == id)
    ensures var o := Execute(j, p, l, c);
      if c.Exists? then o == Out(Ok(Flag(Stored(l.state, id) != [])), l.(calls := l.calls + 1))
      else if c.Create? then
        Stored(l.state, id) != [] ==> o == Out(Err(InvalidArgument), l.(calls := l.calls + 1))
      else Unreadable(j, l, id) ==> o == Out(Err(InvalidArgument), l.(calls := l.calls + 1))
  {
  }

  // ---- transfer depends on the invariant ----

  /** On any ledger at all, a transfer that succeeds gives the asset found under `id` its new
      owner there if and only if that asset's own id is `id` (or it had that owner
      already). Otherwise it writes under another key. */
  lemma TransferHitsItsKeyIff(j: Json, p: Peer, l: Ledger, id: string, owner: string)
    requires Lawful(j) && TransferAsset(j, p, l, id, owner).result.Ok?
    ensures id in l.state && j.dec(l.state[id]).Some?
    ensures var a := j.dec(l.state[id]).value; var l' := TransferAsset(j, p, l, id, owner).ledger;
      && l'.state == l.state[a.id := j.enc(a.(owner := owner))]
      && (j.dec(Stored(l'.state, id)) == Some(a.(owner := owner)) <==> a.id == id || a.owner == owner)
  {
  }

  /** A ledger whose record under "a" carries the id "b": the transfer of "a" succeeds, leaves
      "a" as it was, and writes "b". */
  lemma StrayTransfer(j: Json, p: Peer, a: Asset, owner: string)
    requires Lawful(j) && Serves(p) && a.id == "b" && a.owner != owner
    ensures var l := Ledger(map["a" := j.enc(a)], 0, None); var o := TransferAsset(j, p, l, "a", owner);
      && o.result.Ok? && j.dec(o.ledger.state["a"]) == Some(a)
      && "b" in o.ledger.state && j.dec(o.ledger.state["b"]) == Some(a.(owner := owner))
  {
    var l := Ledger(map["a" := j.enc(a)], 0, None);
    assert |j.enc(a)| > 0 && j.dec(j.enc(a)) == Some(a) && p(0) && p(1);
    assert Stored(l.state, "a") == j.enc(a);
  }

  /** In every ledger the contract itself can produce, a transfer changes the requested key
      only, and of its asset only the owner; the event carries the new asset. */
  lemma TransferChangesOnlyTheOwner(j: Json, p: Peer, cs: seq<Call>, id: string, owner: string)
    requires Lawful(j)
    ensures var l := Run(j, p, Ledger(map[], 0, None), cs).1; var o := TransferAsset(j, p, l, id, owner);
      o.result.Ok? ==>
        && id in l.state && id in o.ledger.state
        && (forall key :: key != id ==> Stored(o.ledger.state, key) == Stored(l.state, key)
                                        && (key in o.ledger.state <==> key in l.state))
        && j.dec(l.state[id]).Some?
        && var a := j.dec(l.state[id]).value;
           && o.result.value == a.owner && j.dec(o.ledger.state[id]) == Some(a.(owner := owner))
           && o.ledger.event == Some(("AssetTransferred", o.ledger.state[id]))
  {
    HistoryKeepsLedgerOk(j, p, Ledger(map[], 0, None), cs);
    var l := Run(j, p, Ledger(map[], 0, None), cs).1;
    if TransferAsset(j, p, l, id, owner).result.Ok? {
      TransferHitsItsKeyIff(j, p, l, id, owner);
    }
  }

  // ---- listing ----

  predicate Ascending(kvs: seq<Kv>) {
    forall i, j :: 0 <= i < j < |kvs| ==> KeyLess(kvs[i].key, kvs[j].key)
  }

  /** `kvs` lists the world state in key order. */
  predicate Lists(kvs: seq<Kv>, state: map<string, Bytes>) {
    && Ascending(kvs)
    && (forall i :: 0 <= i < |kvs| ==> kvs[i].key in state && kvs[i].value == state[kvs[i].key])
    && (forall key :: key in state ==> exists i :: 0 <= i < |kvs| && kvs[i].key == key)
  }

  lemma {:induction false} UnboundedScan(kvs: seq<Kv>)
    ensures Scan(kvs, "", "") == kvs
  {
    if kvs != [] {
      UnboundedScan(kvs[1..]);
    }
  }

  lemma {:induction false} RowsOfList(j: Json, kvs: seq<Kv>)
    requires forall i :: 0 <= i < |kvs| ==> j.dec(kvs[i].value).Some?
    ensures |Rows(j, kvs)| == |kvs|
    ensures forall i :: 0 <= i < |kvs| ==> Rows(j, kvs)[i] == (kvs[i].key, j.dec(kvs[i].value).value)
  {
    if kvs != [] {
      RowsOfList(j, kvs[1..]);
    }
  }

  /** What listing makes of any records at all: those that decode, each once and in order, and
      no others; the corrupt ones are skipped. */
  lemma {:induction false} RowsSkipCorrupt(j: Json, kvs: seq<Kv>, more: seq<Kv>)
    ensures Rows(j, kvs + more) == Rows(j, kvs) + Rows(j, more)
    ensures |kvs| == 1 && j.dec(kvs[0].value).None? ==> Rows(j, kvs) == []
    ensures |kvs| == 1 && j.dec(kvs[0].value).Some? ==> Rows(j, kvs) == [(kvs[0].key, j.dec(kvs[0].value).value)]
  {
    if kvs == [] {
      assert kvs + more == more;
    } else {
      RowsSkipCorrupt(j, kvs[1..], more);
      assert (kvs + more)[0] == kvs[0] && (kvs + more)[1..] == kvs[1..] + more;
      assert |kvs| == 1 ==> kvs[1..] == [];
    }
  }

  /** The rows list the map in key order, nothing missing, nothing twice. */
  predicate ListsMap(rows: seq<(string, Asset)>, m: map<string, Asset>) {
    && (forall i, j :: 0 <= i < j < |rows| ==> KeyLess(rows[i].0, rows[j].0))
    && (forall i :: 0 <= i < |rows| ==> rows[i].0 in m && rows[i].1 == m[rows[i].0])
    && (forall key :: key in m ==> exists i :: 0 <= i < |rows| && rows[i].0 == key)
  }

  lemma RowsListTheMap(j: Json, kvs: seq<Kv>, state: map<string, Bytes>)
    requires LedgerOk(j, state) && Lists(kvs, state)
    ensures ListsMap(Rows(j, kvs), Meaning(j, state))
  {
    RowsOfList(j, kvs);
    var rows, m := Rows(j, kvs), Meaning(j, state);
    forall key | key in m
      ensures exists i :: 0 <= i < |rows| && rows[i].0 == key
    {
      var i :| 0 <= i < |kvs| && kvs[i].key == key;
      assert rows[i].0 == key;
    }
  }

  /** After any history, listing all assets through any paging of the range query lists
      exactly the map, in key order. */
  lemma GetAllListsTheMap(j: Json, p: Peer, cs: seq<Call>, kvs: seq<Kv>, decode: Bytes -> Option<Kv>,
                          encode: Kv -> Bytes, rs: seq<QueryResponse>)
    requires Lawful(j) && Lists(kvs, Run(j, p, Ledger(map[], 0, None), cs).1.state)
    requires Decodes(decode, encode, kvs) && Cuts(rs, Encoded(encode, kvs))
    ensures var q := QueryAll(decode, Cursor(AllOk(rs), Ok(()), []), "", "");
      q.0.Ok? && ListsMap(Rows(j, q.0.value), Meaning(j, Run(j, p, Ledger(map[], 0, None), cs).1.state))
  {
    HistoryKeepsLedgerOk(j, p, Ledger(map[], 0, None), cs);
    UnboundedScan(kvs);
    PagingEqualsScan(decode, encode, kvs, "", "", rs);
    RowsListTheMap(j, kvs, Run(j, p, Ledger(map[], 0, None), cs).1.state);
  }

  /** Key order is total on any finite set of keys. */
  lemma {:induction false} LeastKey(keys: set<string>) returns (k: string)
    requires keys != {}
    ensures k in keys && forall x :: x in keys ==> x == k || KeyLess(k, x)
  {
    k :| k in keys;
    var rest := keys - {k};
    assert keys == rest + {k};
    if rest != {} {
      var m := LeastKey(rest);
      ByteOrderIsTextOrder(k, m);
      ByteOrderIsTextOrder(m, k);
      TextOrderIsStrict(k, m);
      if KeyLess(m, k) {
        k := m;
      } else {
        forall x | x in rest
          ensures KeyLess(k, x)
        {
          if x != m {
            KeyLessTransitive(k, m, x);
          }
        }
      }
    }
  }

  lemma KeyLessTransitive(a: string, b: string, c: string)
    requires KeyLess(a, b) && KeyLess(b, c)
    ensures KeyLess(a, c)
  {
    ByteOrderIsTextOrder(a, b);
    ByteOrderIsTextOrder(b, c);
    ByteOrderIsTextOrder(a, c);
    TextOrderIsTransitive(a, b, c);
  }

  lemma SmallerMap(state: map<string, Bytes>, k: string)
    requires k in state
    ensures |state - {k}| < |state|
  {
    assert (state - {k}).Keys == state.Keys - {k};
    assert |(state - {k}).Keys| == |state - {k}| && |state.Keys| == |state|;
  }

  lemma ListFirst(state: map<string, Bytes>, k: string, tail: seq<Kv>)
    requires k in state && Lists(tail, state - {k})
    requires forall x :: x in state ==> x == k || KeyLess(k, x)
    ensures Lists([Kv(k, state[k])] + tail, state)
  {
    var kvs := [Kv(k, state[k])] + tail;
    assert forall i :: 1 <= i < |kvs| ==> kvs[i] == tail[i - 1];
    forall key | key in state
      ensures exists i :: 0 <= i < |kvs| && kvs[i].key == key
    {
      if key == k {
        assert kvs[0].key == key;
      } else {
        assert key in state - {k};
        var i :| 0 <= i < |tail| && tail[i].key == key;
        assert kvs[i + 1].key == key;
      }
    }
  }

  /** Every world state has a listing in key order. */
  lemma {:induction false} ListingExists(state: map<string, Bytes>) returns (kvs: seq<Kv>)
    ensures Lists(kvs, state)
    decreases |state|
  {
    if state == map[] {
      kvs := [];
    } else {
      assert state.Keys != {};
      var k := LeastKey(state.Keys);
      SmallerMap(state, k);
      var tail := ListingExists(state - {k});
      ListFirst(state, k, tail);
      kvs := [Kv(k, state[k])] + tail;
    }
  }
}
