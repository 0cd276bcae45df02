/** The two pieces of logic in the profile page's effects: enriching the
    user's address records with the names of their region, province, city
    and barangay, and choosing which thunks to dispatch on mount. */
module Profile {
  import opened Wrappers
  import opened Js

  /** One entry of a select-philippines-address list: its code and its name
      (`region_code`/`region_name`, `province_code`/`province_name`,
      `city_code`/`city_name`, `brgy_code`/`brgy_name`). */
  datatype Entry = Entry(code: string, name: string)

  /** The four directory calls `regions`, `provinces`, `cities` and
      `barangays`, each applied to the code it is called with. A call
      resolves to its list or rejects. */
  datatype Directory = Directory(
    regions: Value -> Result<seq<Entry>, Fault>,
    provinces: Value -> Result<seq<Entry>, Fault>,
    cities: Value -> Result<seq<Entry>, Fault>,
    barangays: Value -> Result<seq<Entry>, Fault>)

  /** `entry.<level>_code === code`: the entry code is always a string, so
      only a string record code equal to it matches. */
  predicate Matches(e: Entry, code: Value) {
    code == Str(e.code)
  }

  /** `i` is the position of the first entry that matches `code`. */
  predicate IsFirstMatch(entries: seq<Entry>, code: Value, i: int) {
    && 0 <= i < |entries|
    && Matches(entries[i], code)
    && forall j | 0 <= j < i :: !Matches(entries[j], code)
  }

  /** The position `Array.prototype.find` stops at. */
  function FirstMatch(entries: seq<Entry>, code: Value): (k: Option<nat>)
    ensures k.Some? ==> IsFirstMatch(entries, code, k.value)
    ensures k.None? <==> forall i | 0 <= i < |entries| :: !Matches(entries[i], code)
  {
    if |entries| == 0 then None
    else if Matches(entries[0], code) then Some(0)
    else
      match FirstMatch(entries[1..], code)
      case None => None
      case Some(k) => Some(k + 1)
  }

  /** `entries.find(e => e.<level>_code === code)?.<level>_name` */
  function FindName(entries: seq<Entry>, code: Value): (name: Value)
    ensures name.Undefined? || name.Str?
    ensures name.Undefined? <==> forall i | 0 <= i < |entries| :: !Matches(entries[i], code)
    ensures name.Str? ==> exists i :: IsFirstMatch(entries, code, i) && name == Str(entries[i].name)
  {
    match FirstMatch(entries, code)
    case None => Undefined
    case Some(i) => Str(entries[i].name)
  }

  /** The four keys the resolution adds to each record. */
  const NameKeys: set<string> := {"regionName", "provinceName", "cityName", "barangayName"}

  /** All four directory calls for one record succeed; each is keyed by a
      code the record itself carries. */
  predicate LookupsSucceed(dir: Directory, address: Value) {
    && dir.regions(Prop(address, "region")).Success?
    && dir.provinces(Prop(address, "region")).Success?
    && dir.cities(Prop(address, "province")).Success?
    && dir.barangays(Prop(address, "city")).Success?
  }

  /** The four resolved names of one record. */
  datatype Names = Names(region: Value, province: Value, city: Value, barangay: Value)

  /** `{ ...address, regionName, provinceName, cityName, barangayName }`:
      every own property of the record is kept and the four names are added
      (or overwritten). */
  function Enrich(address: Value, names: Names): (v: Value)
    ensures v.Obj? && v.props.Keys == OwnProps(address).Keys + NameKeys
    ensures forall k | k in OwnProps(address) && k !in NameKeys :: v.props[k] == OwnProps(address)[k]
    ensures v.props["regionName"] == names.region
    ensures v.props["provinceName"] == names.province
    ensures v.props["cityName"] == names.city
    ensures v.props["barangayName"] == names.barangay
  {
    Obj(OwnProps(address) + map[
      "regionName" := names.region,
      "provinceName" := names.province,
      "cityName" := names.city,
      "barangayName" := names.barangay])
  }

  /** The per-record callback of the `userAddresses.map(async ...)`: read the
      codes, await the four lists in turn (provinces by the region code,
      cities by the province code, barangays by the city code), then name
      each level from its own list. */
  function Resolve(dir: Directory, address: Value): (r: Result<Value, Fault>)
    ensures r.Success? <==> !IsNullish(address) && LookupsSucceed(dir, address)
    ensures r.Success? ==>
              r.value == Enrich(address, Names(
                FindName(dir.regions(Prop(address, "region")).value, Prop(address, "region")),
                FindName(dir.provinces(Prop(address, "region")).value, Prop(address, "province")),
                FindName(dir.cities(Prop(address, "province")).value, Prop(address, "city")),
                FindName(dir.barangays(Prop(address, "city")).value, Prop(address, "barangay"))))
  {
    var regionCode :- Get(address, "region");
    // once `address.region` has been read, the record is not nullish and
    // its other reads cannot throw
    var provinceCode := Prop(address, "province");
    var cityCode := Prop(address, "city");
    var regionList :- dir.regions(regionCode);
    var provinceList :- dir.provinces(regionCode);
    var cityList :- dir.cities(provinceCode);
    var barangayList :- dir.barangays(cityCode);
    var barangayCode := Prop(address, "barangay");
    Success(Enrich(address, Names(
      FindName(regionList, regionCode),
      FindName(provinceList, provinceCode),
      FindName(cityList, cityCode),
      FindName(barangayList, barangayCode))))
  }

  /** The `Promise.all` over the per-record callbacks: all resolved, in
      input order, or one rejection for the batch. */
  function ResolveAll(dir: Directory, addresses: seq<Value>): (r: Result<seq<Value>, Fault>)
    ensures r.Success? ==> |r.value| == |addresses|
    ensures r.Success? ==> forall i | 0 <= i < |addresses| :: Resolve(dir, addresses[i]) == Success(r.value[i])
    ensures r.Failure? <==> exists i | 0 <= i < |addresses| :: Resolve(dir, addresses[i]).Failure?
  {
    PromiseAll(address => Resolve(dir, address), addresses)
  }

  /** `fetchData`: the next value of the `addressData` state. `None` stands
      for `userAddresses` being `undefined` or `null`. */
  function FetchData(dir: Directory, userAddresses: Option<seq<Value>>, addressData: seq<Value>)
    : (next: seq<Value>)
    ensures userAddresses.None? || userAddresses.value == [] ==> next == addressData
    ensures userAddresses.Some? &&
            (exists i | 0 <= i < |userAddresses.value| :: Resolve(dir, userAddresses.value[i]).Failure?)
            ==> next == addressData
    ensures userAddresses.Some? && userAddresses.value != [] &&
            (forall i | 0 <= i < |userAddresses.value| :: Resolve(dir, userAddresses.value[i]).Success?)
            ==> |next| == |userAddresses.value| &&
                forall i | 0 <= i < |next| :: Resolve(dir, userAddresses.value[i]) == Success(next[i])
  {
    match userAddresses
    case None => addressData
    case Some(list) =>
      if |list| > 0 then
        match ResolveAll(dir, list)
        case Success(resolved) => resolved
        case Failure(_) => addressData
      else addressData
  }

  /** A miss at one level leaves only that level's name undefined: each
      deeper name still comes from the first entry of its own list whose
      code equals the record's own code. */
  lemma {:induction false} MissDoesNotBlockDeeperLevels(dir: Directory, address: Value, e: Entry, k: nat)
    requires !IsNullish(address) && LookupsSucceed(dir, address)
    requires forall i | 0 <= i < |dir.regions(Prop(address, "region")).value| ::
               !Matches(dir.regions(Prop(address, "region")).value[i], Prop(address, "region"))
    requires var cityList := dir.cities(Prop(address, "province")).value;
             k < |cityList| && cityList[k] == e && IsFirstMatch(cityList, Prop(address, "city"), k)
    ensures Resolve(dir, address).Success?
    ensures Resolve(dir, address).value.props["regionName"] == Undefined
    ensures Resolve(dir, address).value.props["cityName"] == Str(e.name)
  {
  }

  /** A directory that knows region 01, province 0128, city 012801 and, in
      that city, only barangay 012801001. */
  const SampleDirectory: Directory := Directory(
    code => Success([Entry("01", "REGION I (ILOCOS REGION)")]),
    code => Success(if code == Str("01") then [Entry("0128", "ILOCOS NORTE")] else []),
    code => Success(if code == Str("0128") then [Entry("012801", "ADAMS")] else []),
    code => Success(if code == Str("012801") then [Entry("012801001", "ADAMS (POB.)")] else []))

  function SampleAddress(barangay: string): Value {
    Obj(map["region" := Str("01"), "province" := Str("0128"), "city" := Str("012801"),
            "barangay" := Str(barangay)])
  }

  /** One sample record resolves at the three upper levels, and at the
      barangay level exactly when its city lists its barangay code. */
  lemma SampleResolution(barangay: string)
    ensures Resolve(SampleDirectory, SampleAddress(barangay)) ==
              Success(Enrich(SampleAddress(barangay), Names(
                Str("REGION I (ILOCOS REGION)"), Str("ILOCOS NORTE"), Str("ADAMS"),
                if barangay == "012801001" then Str("ADAMS (POB.)") else Undefined)))
  {
    var a := SampleAddress(barangay);
    assert Prop(a, "region") == Str("01") && Prop(a, "province") == Str("0128");
    assert Prop(a, "city") == Str("012801") && Prop(a, "barangay") == Str(barangay);
    assert FindName([Entry("01", "REGION I (ILOCOS REGION)")], Str("01")) == Str("REGION I (ILOCOS REGION)");
    assert FindName([Entry("0128", "ILOCOS NORTE")], Str("0128")) == Str("ILOCOS NORTE");
    assert FindName([Entry("012801", "ADAMS")], Str("012801")) == Str("ADAMS");
    var brgys := [Entry("012801001", "ADAMS (POB.)")];
    var bn := if barangay == "012801001" then Str("ADAMS (POB.)") else Undefined;
    if barangay == "012801001" {
      assert FindName(brgys, Str(barangay)) == bn;
    } else {
      assert !Matches(brgys[0], Str(barangay));
      assert FindName(brgys, Str(barangay)) == bn;
    }
    var names := Names(Str("REGION I (ILOCOS REGION)"), Str("ILOCOS NORTE"), Str("ADAMS"), bn);
    assert LookupsSucceed(SampleDirectory, a);
    assert Resolve(SampleDirectory, a) == Success(Enrich(a, names));
  }

  /** A batch of two records: the first resolves at all four levels; the
      second carries a barangay code its city does not list, so its first
      three names resolve, the fourth is undefined, nothing throws and the
      first record is unaffected. */
  lemma PartialResolutionExample()
    ensures var r := ResolveAll(SampleDirectory, [SampleAddress("012801001"), SampleAddress("012801999")]);
            && r.Success?
            && r.value[0] == Enrich(SampleAddress("012801001"), Names(
                 Str("REGION I (ILOCOS REGION)"), Str("ILOCOS NORTE"), Str("ADAMS"), Str("ADAMS (POB.)")))
            && r.value[1] == Enrich(SampleAddress("012801999"), Names(
                 Str("REGION I (ILOCOS REGION)"), Str("ILOCOS NORTE"), Str("ADAMS"), Undefined))
  {
    SampleResolution("012801001");
    SampleResolution("012801999");
    PromiseAllPair(address => Resolve(SampleDirectory, address),
      SampleAddress("012801001"), SampleAddress("012801999"),
      Enrich(SampleAddress("012801001"), Names(
        Str("REGION I (ILOCOS REGION)"), Str("ILOCOS NORTE"), Str("ADAMS"), Str("ADAMS (POB.)"))),
      Enrich(SampleAddress("012801999"), Names(
        Str("REGION I (ILOCOS REGION)"), Str("ILOCOS NORTE"), Str("ADAMS"), Undefined)));
  }

  /** The thunks the profile page can dispatch when it mounts. */
  datatype Thunk = MyAddresses | MyMotorcycle | MyFuel | MyOrders | AllOrders | ListOrders | ClearAddressErrors

  /** What the mount effect did: the thunks it dispatched, in order, and
      whether it threw part-way. */
  datatype EffectRun = EffectRun(dispatched: seq<Thunk>, threw: bool)

  /** The four thunks every mount dispatches, in order. */
  const AlwaysDispatched: seq<Thunk> := [MyAddresses, MyMotorcycle, MyFuel, MyOrders]

  /** No thunk occurs twice. */
  predicate Distinct(ts: seq<Thunk>) {
    forall i, j | 0 <= i < j < |ts| :: ts[i] != ts[j]
  }

  /** The thunks the effect adds after the first four. */
  function ConditionalDispatches(role: Value, error: Value): (ts: seq<Thunk>)
    ensures AllOrders in ts <==> role == Str("admin")
    ensures ListOrders in ts <==> role == Str("secretary")
    ensures ClearAddressErrors in ts <==> Truthy(error)
    ensures forall t | t in ts :: t == AllOrders || t == ListOrders || t == ClearAddressErrors
    ensures Distinct(ts)
    ensures ClearAddressErrors in ts ==> ts[|ts| - 1] == ClearAddressErrors
  {
    (if role == Str("admin") then [AllOrders] else [])
    + (if role == Str("secretary") then [ListOrders] else [])
    + (if Truthy(error) then [ClearAddressErrors] else [])
  }

  /** Appending distinct conditional thunks to the first four keeps every
      thunk distinct and leaves the conditional ones at the end. */
  lemma AfterAlwaysDispatched(rest: seq<Thunk>)
    requires forall t | t in rest :: t == AllOrders || t == ListOrders || t == ClearAddressErrors
    requires Distinct(rest)
    ensures var d := AlwaysDispatched + rest;
            && d[..4] == AlwaysDispatched
            && Distinct(d)
            && (|rest| > 0 ==> d[|d| - 1] == rest[|rest| - 1])
  {
    var d := AlwaysDispatched + rest;
    forall i, j | 0 <= i < j < |d|
      ensures d[i] != d[j]
    {
      if j >= 4 && i < 4 {
        assert d[j] == rest[j - 4] && d[j] in rest;
      }
    }
  }

  /** The second effect's dispatch choice for the signed-in `user` and the
      address slice's `error`. Reading `user.role` throws when `user` is
      nullish, after the first four dispatches. */
  function MountEffect(user: Value, error: Value): (r: EffectRun)
    ensures |r.dispatched| >= 4 && r.dispatched[..4] == AlwaysDispatched
    ensures r.threw <==> IsNullish(user)
    ensures r.threw ==> r.dispatched == AlwaysDispatched
    ensures AllOrders in r.dispatched <==> !IsNullish(user) && Prop(user, "role") == Str("admin")
    ensures ListOrders in r.dispatched <==> !IsNullish(user) && Prop(user, "role") == Str("secretary")
    ensures ClearAddressErrors in r.dispatched <==> !IsNullish(user) && Truthy(error)
    ensures Distinct(r.dispatched)
    ensures ClearAddressErrors in r.dispatched ==> r.dispatched[|r.dispatched| - 1] == ClearAddressErrors
  {
    match Get(user, "role")
    case Failure(_) => EffectRun(AlwaysDispatched, true)
    case Success(role) =>
      var rest := ConditionalDispatches(role, error);
      AfterAlwaysDispatched(rest);
      EffectRun(AlwaysDispatched + rest, false)
  }
}
