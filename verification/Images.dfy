/** Image plans for custom resource types (atc/config.go). */
module Images {
  import opened Wrappers
  import opened Steps
  import opened Plans

  type Types = seq<ResourceType>

  function Lookup(types: Types, name: string): Option<ResourceType> {
    if types == [] then None
    else if types[0].name == name then Some(types[0])
    else Lookup(types[1..], name)
  }

  function Without(types: Types, name: string): Types {
    if types == [] then []
    else (if types[0].name != name then [types[0]] else []) + Without(types[1..], name)
  }

  lemma {:induction false} WithoutShrinks(types: Types, name: string)
    ensures |Without(types, name)| <= |types|
    ensures Lookup(types, name).Some? ==> |Without(types, name)| < |types|
  {
    if types != [] {
      WithoutShrinks(types[1..], name);
    }
  }

  lemma {:induction false} LookupName(types: Types, name: string)
    ensures Lookup(types, name).Some? ==> Lookup(types, name).value.name == name && Lookup(types, name).value in types
  {
    if types != [] {
      LookupName(types[1..], name);
    }
  }

  /** Lookup finds the type at the first place with that name, if there is one. */
  lemma {:induction false} LookupFirst(types: Types, name: string, i: nat)
    requires i <= |types| && (i < |types| ==> types[i].name == name) && forall k :: 0 <= k < i ==> types[k].name != name
    ensures Lookup(types, name) == if i < |types| then Some(types[i]) else None
  {
    if i > 0 {
      LookupFirst(types[1..], name, i - 1);
    }
  }

  lemma {:induction false} LookupWithout(types: Types, gone: string, name: string)
    ensures Lookup(Without(types, gone), name) == if name == gone then None else Lookup(types, name)
  {
    if types != [] {
      LookupWithout(types[1..], gone, name);
      if types[0].name != gone {
        assert Without(types, gone)[1..] == Without(types[1..], gone);
      } else {
        assert Without(types, gone) == Without(types[1..], gone);
      }
    }
  }

  /** An image to fetch; `version` is known when a task pins it. */
  datatype ImageResource = ImageResource(
    name: string, kind: string, source: Source, params: Json, tags: Tags, version: Option<Version>)

  /** ImageForType: the image of a resource of type `name`, whose fetching plans are
      named after `id`. */
  function ImageForType(types: Types, id: PlanID, name: string, stepTags: Tags, skipInterval: bool): TypeImage
    decreases |types|, 1
  {
    WithoutShrinks(types, name);
    match Lookup(types, name)
    case None => TypeImage(name, false, None, None)
    case Some(parent) =>
      LookupName(types, name);
      var image := ImageResource(parent.name, parent.parent, parent.source, parent.params, parent.tags, None);
      var (get, check) := FetchImagePlan(id, image, Without(types, parent.name), stepTags, skipInterval, parent.checkEvery);
      TypeImage(
        get.body.get.image.baseType, parent.privileged,
        Some(Plan(check.value.id, CheckPlan(check.value.body.check.(resourceType := name)))),
        Some(get))
  }

  /** FetchImagePlan: a get for the image, and a check before it unless the version is known. */
  function FetchImagePlan(id: PlanID, image: ImageResource, types: Types, stepTags: Tags, skipInterval: bool,
                          checkEvery: Option<CheckEvery>): (r: (Plan, Option<Plan>))
    ensures r.0.body.GetPlan? && r.0.id == id + "/image-get"
    ensures image.version.None? <==> r.1.Some?
    ensures r.1.Some? ==> r.1.value.body.CheckPlan? && r.1.value.id == id + "/image-check"
    ensures r.0.body.get.version == image.version
    ensures r.0.body.get.versionFrom == (if r.1.Some? then Some(r.1.value.id) else None)
    decreases |types|, 2
  {
    var tags := if |image.tags| == 0 then stepTags else image.tags;
    var getID := id + "/image-get";
    var checkID := id + "/image-check";
    var getImage := ImageForType(types, getID, image.kind, tags, skipInterval);
    if image.version.None? then
      var checkImage := ImageForType(types, checkID, image.kind, tags, skipInterval);
      (Plan(getID, GetPlan(GetBody(image.name, image.kind, image.source, getImage, None, Some(checkID), image.params, "", tags, ""))),
       Some(Plan(checkID, CheckPlan(CheckBody(image.name, image.kind, image.source, checkImage, "",
                                              checkEvery, skipInterval, tags)))))
    else
      (Plan(getID, GetPlan(GetBody(image.name, image.kind, image.source, getImage, image.version, None, image.params, "", tags, ""))),
       None)
  }

  /** The two plans of an image, around the images of the parent type. */
  lemma ImagePlans(types: Types, id: PlanID, name: string, tags: Tags, skip: bool) returns (get: GetBody, check: CheckBody)
    requires Lookup(types, name).Some?
    ensures var t := Lookup(types, name).value;
            var rest, own := Without(types, name), if |t.tags| == 0 then tags else t.tags;
            && get == GetBody(t.name, t.parent, t.source, ImageForType(rest, id + "/image-get", t.parent, own, skip), None,
                              Some(id + "/image-check"), t.params, "", own, "")
            && check == CheckBody(t.name, t.parent, t.source, ImageForType(rest, id + "/image-check", t.parent, own, skip), name,
                                  t.checkEvery, skip, own)
            && ImageForType(types, id, name, tags, skip)
               == TypeImage(get.image.baseType, t.privileged, Some(Plan(id + "/image-check", CheckPlan(check))),
                            Some(Plan(id + "/image-get", GetPlan(get))))
  {
    LookupName(types, name);
    WithoutShrinks(types, name);
    var t := Lookup(types, name).value;
    var image := ImageResource(t.name, t.parent, t.source, t.params, t.tags, None);
    var (fetch, before) := FetchImagePlan(id, image, Without(types, name), tags, skip, t.checkEvery);
    get, check := fetch.body.get, before.value.body.check.(resourceType := name);
  }

  // ---- how large an image plan is and where it ends ----

  /** How many custom types stand between `name` and its base type. */
  function Depth(types: Types, name: string): nat
    decreases |types|
  {
    WithoutShrinks(types, name);
    match Lookup(types, name)
    case None => 0
    case Some(t) => 1 + Depth(Without(types, name), t.parent)
  }

  /** The name at the end of the chain of custom types. */
  function BaseOf(types: Types, name: string): string
    decreases |types|
  {
    WithoutShrinks(types, name);
    match Lookup(types, name)
    case None => name
    case Some(t) => BaseOf(Without(types, name), t.parent)
  }

  function Pow2(n: nat): nat {
    if n == 0 then 1 else 2 * Pow2(n - 1)
  }

  /** A chain of d custom types needs 2^(d+1) - 2 image plans. */
  lemma {:induction false} ImageSize(types: Types, id: PlanID, name: string, tags: Tags, skip: bool)
    ensures |AllInImage(ImageForType(types, id, name, tags, skip))| == Pow2(Depth(types, name) + 1) - 2
    ensures ImageForType(types, id, name, tags, skip).baseType == BaseOf(types, name)
    decreases |types|
  {
    WithoutShrinks(types, name);
    if Lookup(types, name).Some? {
      LookupName(types, name);
      var t := Lookup(types, name).value;
      var tags' := if |t.tags| == 0 then tags else t.tags;
      ImageSize(Without(types, name), id + "/image-get", t.parent, tags', skip);
      ImageSize(Without(types, name), id + "/image-check", t.parent, tags', skip);
      var image := ImageForType(types, id, name, tags, skip);
      assert All(image.check.value) == [image.check.value] + AllInImage(image.check.value.body.check.image);
      assert All(image.get.value) == [image.get.value] + AllInImage(image.get.value.body.get.image);
    }
  }

  // ---- every plan of an image, by the way to it ----

  datatype Turn = ToCheck | ToGet

  function Segment(turn: Turn): string {
    if turn.ToGet? then "/image-get" else "/image-check"
  }

  /** The id a way leads to. */
  function IdOn(id: PlanID, way: seq<Turn>): PlanID
    decreases |way|
  {
    if way == [] then id else IdOn(id + Segment(way[0]), way[1..])
  }

  /** The plan that a non-empty way through an image leads to. */
  function PlanOn(image: TypeImage, way: seq<Turn>): Option<Plan>
    requires way != []
    decreases |way|
  {
    var here := if way[0].ToGet? then image.get else image.check;
    if here.None? || |way| == 1 then here
    else
      match here.value.body
      case GetPlan(get) => PlanOn(get.image, way[1..])
      case CheckPlan(check) => PlanOn(check.image, way[1..])
      case _ => None
  }

  /** The custom types from `name` to its base type. */
  function Chain(types: Types, name: string): seq<ResourceType>
    decreases |types|
  {
    WithoutShrinks(types, name);
    match Lookup(types, name)
    case None => []
    case Some(t) => [t] + Chain(Without(types, name), t.parent)
  }

  /** The tags of the nearest of the first `n` types that has some, or else those given. */
  function TagsAt(chain: seq<ResourceType>, n: nat, tags: Tags): Tags
    requires n <= |chain|
  {
    if n == 0 then tags else if chain[n - 1].tags != [] then chain[n - 1].tags else TagsAt(chain, n - 1, tags)
  }

  lemma {:induction false} TagsFromFront(chain: seq<ResourceType>, n: nat, tags: Tags)
    requires 1 <= n <= |chain|
    ensures TagsAt(chain, n, tags) == TagsAt(chain[1..], n - 1, if chain[0].tags != [] then chain[0].tags else tags)
  {
    if n > 1 { TagsFromFront(chain, n - 1, tags); }
  }

  /** The image a chain of types ends in. */
  ghost predicate IsImageOf(image: TypeImage, chain: seq<ResourceType>, name: string) {
    && image.baseType == (if chain == [] then name else chain[|chain| - 1].parent)
    && image.privileged == (chain != [] && chain[0].privileged)
    && image.check.Some? == image.get.Some? == (chain != [])
  }

  lemma {:induction false} ImageEnds(types: Types, id: PlanID, name: string, tags: Tags, skip: bool)
    ensures IsImageOf(ImageForType(types, id, name, tags, skip), Chain(types, name), name)
    decreases |types|
  {
    WithoutShrinks(types, name);
    if Lookup(types, name).Some? {
      LookupName(types, name);
      var t := Lookup(types, name).value;
      ImageEnds(Without(types, name), id + "/image-get", t.parent, if |t.tags| == 0 then tags else t.tags, skip);
    }
  }

  /** The plan fetches or checks the `n`-th type of the chain (from 0), as its configuration
      says. */
  ghost predicate Fetches(p: Plan, turn: Turn, chain: seq<ResourceType>, n: nat, tags: Tags, skip: bool, checkID: PlanID)
    requires n < |chain|
  {
    var t := chain[n];
    match turn
    case ToGet =>
      && p.body.GetPlan? && IsImageOf(p.body.get.image, chain[n + 1..], t.parent)
      && p.body.get == GetBody(t.name, t.parent, t.source, p.body.get.image, None, Some(checkID), t.params, "",
                               TagsAt(chain, n + 1, tags), "")
    case ToCheck =>
      && p.body.CheckPlan? && IsImageOf(p.body.check.image, chain[n + 1..], t.parent)
      && p.body.check == CheckBody(t.name, t.parent, t.source, p.body.check.image, t.name, t.checkEvery, skip,
                                   TagsAt(chain, n + 1, tags))
  }

  lemma IdFirst(way: seq<Turn>, id: PlanID)
    requires |way| > 1
    ensures way[1..][|way| - 2] == way[|way| - 1]
    ensures IdOn(id, way[..|way| - 1] + [ToCheck]) == IdOn(id + Segment(way[0]), way[1..][..|way| - 2] + [ToCheck])
  {
    var other := way[..|way| - 1] + [ToCheck];
    assert other[1..] == way[1..][..|way| - 2] + [ToCheck];
  }

  lemma FetchesUp(p: Plan, turn: Turn, t: ResourceType, chain: seq<ResourceType>, n: nat, tags: Tags, skip: bool, checkID: PlanID)
    requires n < |chain| && Fetches(p, turn, chain, n, if t.tags != [] then t.tags else tags, skip, checkID)
    ensures Fetches(p, turn, [t] + chain, n + 1, tags, skip, checkID)
  {
    var all := [t] + chain;
    TagsFromFront(all, n + 2, tags);
    assert all[1..] == chain && all[n + 2..] == chain[n + 1..];
  }

  lemma FirstFetches(types: Types, id: PlanID, name: string, tags: Tags, skip: bool, turn: Turn)
    requires Lookup(types, name).Some?
    ensures var image := ImageForType(types, id, name, tags, skip);
            && image.get.Some? && image.check.Some?
            && image.get.value.id == IdOn(id, [ToGet]) && image.check.value.id == IdOn(id, [ToCheck])
            && Fetches(if turn.ToGet? then image.get.value else image.check.value, turn, Chain(types, name), 0, tags, skip,
                       IdOn(id, [ToCheck]))
  {
    LookupName(types, name);
    WithoutShrinks(types, name);
    var t := Lookup(types, name).value;
    var rest, own := Without(types, name), if |t.tags| == 0 then tags else t.tags;
    ImageEnds(rest, id + "/image-get", t.parent, own, skip);
    ImageEnds(rest, id + "/image-check", t.parent, own, skip);
    assert Chain(types, name)[1..] == Chain(rest, t.parent);
    assert TagsAt(Chain(types, name), 1, tags) == own;
  }

  /** There is a plan exactly if there is a type as far up the chain as the way is long, it is
      named by the way, and it checks or fetches that type. */
  ghost predicate LeadsTo(found: Option<Plan>, chain: seq<ResourceType>, id: PlanID, tags: Tags, skip: bool, way: seq<Turn>)
    requires way != []
  {
    && (found.Some? <==> |way| <= |chain|)
    && (found.Some? ==>
          && found.value.id == IdOn(id, way)
          && Fetches(found.value, way[|way| - 1], chain, |way| - 1, tags, skip, IdOn(id, way[..|way| - 1] + [ToCheck])))
  }

  lemma LeadsUp(found: Option<Plan>, t: ResourceType, rest: seq<ResourceType>, id: PlanID, tags: Tags, skip: bool, way: seq<Turn>)
    requires |way| > 1
    requires LeadsTo(found, rest, id + Segment(way[0]), if t.tags != [] then t.tags else tags, skip, way[1..])
    ensures LeadsTo(found, [t] + rest, id, tags, skip, way)
  {
    IdFirst(way, id);
    if found.Some? {
      FetchesUp(found.value, way[|way| - 1], t, rest, |way| - 2, tags, skip, IdOn(id, way[..|way| - 1] + [ToCheck]));
    }
  }

  /** So does every way through an image, however it turns between checks and gets. */
  lemma {:induction false} ImageOnWay(types: Types, id: PlanID, name: string, tags: Tags, skip: bool, way: seq<Turn>)
    requires way != []
    ensures LeadsTo(PlanOn(ImageForType(types, id, name, tags, skip), way), Chain(types, name), id, tags, skip, way)
    decreases |types|
  {
    WithoutShrinks(types, name);
    if Lookup(types, name).Some? {
      LookupName(types, name);
      var t := Lookup(types, name).value;
      if |way| == 1 {
        assert way == [way[0]] && way[..0] + [ToCheck] == [ToCheck];
        FirstFetches(types, id, name, tags, skip, way[0]);
      } else {
        var rest, own := Without(types, name), if t.tags != [] then t.tags else tags;
        ImageOnWay(rest, id + Segment(way[0]), t.parent, own, skip, way[1..]);
        WayBelow(types, id, name, tags, skip, way);
        LeadsUp(PlanOn(ImageForType(types, id, name, tags, skip), way), t, Chain(rest, t.parent), id, tags, skip, way);
      }
    }
  }

  lemma WayBelow(types: Types, id: PlanID, name: string, tags: Tags, skip: bool, way: seq<Turn>)
    requires Lookup(types, name).Some? && |way| > 1
    ensures var t := Lookup(types, name).value;
            PlanOn(ImageForType(types, id, name, tags, skip), way)
            == PlanOn(ImageForType(Without(types, name), id + Segment(way[0]), t.parent, if t.tags != [] then t.tags else tags, skip),
                      way[1..])
  {
    LookupName(types, name);
    WithoutShrinks(types, name);
  }
}
