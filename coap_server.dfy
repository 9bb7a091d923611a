/** The pure parts of the CoAP control surface: the actor-id formatter, the
    capability listing, the link-format payload, and the fixed resource tree. */
module CoapServer {
  import opened Common
  import Calvinlib

  // ---------------------------------------------------------------------------
  // Actor ids

  function Min(i: nat, n: nat): nat {
    if i <= n then i else n
  }

  /** Python's `s[i:j]` for non-negative bounds: both are clamped to the length,
      and a reversed range is empty. */
  function Slice(s: string, i: nat, j: nat): string {
    var lo, hi := Min(i, |s|), Min(j, |s|);
    if hi <= lo then [] else s[lo..hi]
  }

  /** Python's `s[i:]` for a non-negative bound. */
  function SliceFrom(s: string, i: nat): string {
    s[Min(i, |s|)..]
  }

  /** The storage key `get_actor` looks up: the bare id with '-' inserted after
      characters 8, 12, 16 and 20 (fewer when the id is shorter). */
  function FormatActorId(id: string): (r: string)
    ensures |r| == |id| + 4
  {
    Slice(id, 0, 8) + "-" + Slice(id, 8, 12) + "-" + Slice(id, 12, 16) + "-" + Slice(id, 16, 20) + "-" + SliceFrom(id, 20)
  }

  /** Where FormatActorId puts its four dashes, for an input of length `n`. */
  function DashPositions(n: nat): seq<nat> {
    [Min(8, n), Min(12, n) + 1, Min(16, n) + 2, Min(20, n) + 3]
  }

  /** Deletes the characters at the four dash positions of a formatted id. */
  function StripDashes(r: string): string
    requires |r| >= 4
  {
    var d := DashPositions(|r| - 4);
    r[..d[0]] + r[d[0] + 1..d[1]] + r[d[1] + 1..d[2]] + r[d[2] + 1..d[3]] + r[d[3] + 1..]
  }

  /** The five pieces FormatActorId joins: together they are the id, and their
      lengths are fixed by where the clamped bounds fall. */
  lemma FormatActorIdPieces(id: string)
    ensures var n := |id|;
      var a, b, c, e, f := Slice(id, 0, 8), Slice(id, 8, 12), Slice(id, 12, 16), Slice(id, 16, 20), SliceFrom(id, 20);
      && a + b + c + e + f == id
      && |a| == Min(8, n) && |b| == Min(12, n) - Min(8, n) && |c| == Min(16, n) - Min(12, n)
      && |e| == Min(20, n) - Min(16, n) && |f| == n - Min(20, n)
  {
    var n := |id|;
    var m8, m12, m16, m20 := Min(8, n), Min(12, n), Min(16, n), Min(20, n);
    assert Slice(id, 0, 8) == id[..m8];
    assert Slice(id, 8, 12) == id[m8..m12];
    assert Slice(id, 12, 16) == id[m12..m16];
    assert Slice(id, 16, 20) == id[m16..m20];
    assert SliceFrom(id, 20) == id[m20..];
    assert id == id[..m8] + id[m8..m12] + id[m12..m16] + id[m16..m20] + id[m20..];
  }

  /** Five pieces joined by dashes: each piece sits between the dashes around it. */
  lemma DashJoinParts(a: string, b: string, c: string, e: string, f: string)
    ensures var r := a + "-" + b + "-" + c + "-" + e + "-" + f;
      var d1, d2, d3, d4 := |a|, |a| + 1 + |b|, |a| + |b| + |c| + 2, |a| + |b| + |c| + |e| + 3;
      && |r| == |a| + |b| + |c| + |e| + |f| + 4
      && r[d1] == '-' && r[d2] == '-' && r[d3] == '-' && r[d4] == '-'
      && r[..d1] == a && r[d1 + 1..d2] == b && r[d2 + 1..d3] == c && r[d3 + 1..d4] == e && r[d4 + 1..] == f
  {
    var r := a + "-" + b + "-" + c + "-" + e + "-" + f;
    var ab := a + "-" + b;
    var abc := ab + "-" + c;
    var abce := abc + "-" + e;
    assert r == abce + "-" + f;
    assert r[..|abce|] == abce && r[|abce| + 1..] == f;
    assert abce[..|abc|] == abc && abce[|abc| + 1..] == e;
    assert abc[..|ab|] == ab && abc[|ab| + 1..] == c;
    assert ab[..|a|] == a && ab[|a| + 1..] == b;
    assert r[..|abc|] == abc;
    assert r[..|ab|] == ab;
    assert r[|abc| + 1..|abce|] == e;
    assert r[|ab| + 1..|abc|] == c;
    assert r[|a| + 1..|ab|] == b;
  }

  /** The inserted characters are dashes, at the positions DashPositions names. */
  lemma FormatActorIdDashes(id: string)
    ensures var r, d := FormatActorId(id), DashPositions(|id|);
      forall k :: 0 <= k < 4 ==> d[k] < |r| && r[d[k]] == '-'
  {
    FormatActorIdPieces(id);
    DashJoinParts(Slice(id, 0, 8), Slice(id, 8, 12), Slice(id, 12, 16), Slice(id, 16, 20), SliceFrom(id, 20));
  }

  /** Deleting the inserted dashes gives back the id: no character is lost,
      added or moved. */
  lemma FormatActorIdRoundTrip(id: string)
    ensures StripDashes(FormatActorId(id)) == id
  {
    var a, b, c, e, f := Slice(id, 0, 8), Slice(id, 8, 12), Slice(id, 12, 16), Slice(id, 16, 20), SliceFrom(id, 20);
    FormatActorIdPieces(id);
    DashJoinParts(a, b, c, e, f);
    var r := FormatActorId(id);
    var d := DashPositions(|id|);
    assert d == [|a|, |a| + 1 + |b|, |a| + |b| + |c| + 2, |a| + |b| + |c| + |e| + 3];
    assert StripDashes(r) == a + b + c + e + f;
  }

  /** Distinct ids give distinct keys. */
  lemma FormatActorIdInjective(x: string, y: string)
    requires FormatActorId(x) == FormatActorId(y)
    ensures x == y
  {
    FormatActorIdRoundTrip(x);
    FormatActorIdRoundTrip(y);
  }

  predicate IsHexDigit(ch: char) {
    '0' <= ch <= '9' || 'a' <= ch <= 'f' || 'A' <= ch <= 'F'
  }

  /** The text form of a UUID in section 3 of RFC 4122: 36 characters, hyphens at
      8, 13, 18 and 23, hexadecimal digits elsewhere. */
  predicate IsUuidText(r: string) {
    && |r| == 36
    && (forall k :: 0 <= k < 36 && k in {8, 13, 18, 23} ==> r[k] == '-')
    && (forall k :: 0 <= k < 36 && k !in {8, 13, 18, 23} ==> IsHexDigit(r[k]))
  }

  /** A 32-character id comes out in the 8-4-4-4-12 layout, each group holding the
      id's characters in order; a hexadecimal id therefore becomes a UUID's text form. */
  lemma FormatActorIdUuidLayout(id: string)
    requires |id| == 32
    ensures var r := FormatActorId(id);
      && |r| == 36
      && r[8] == '-' && r[13] == '-' && r[18] == '-' && r[23] == '-'
      && r[..8] == id[..8] && r[9..13] == id[8..12] && r[14..18] == id[12..16]
      && r[19..23] == id[16..20] && r[24..] == id[20..]
    ensures (forall k :: 0 <= k < 32 ==> IsHexDigit(id[k])) ==> IsUuidText(FormatActorId(id))
  {
    var r := FormatActorId(id);
    assert r == id[..8] + "-" + id[8..12] + "-" + id[12..16] + "-" + id[16..20] + "-" + id[20..];
    if forall k :: 0 <= k < 32 ==> IsHexDigit(id[k]) {
      forall k | 0 <= k < 36 && k !in {8, 13, 18, 23} ensures IsHexDigit(r[k]) {
        var src := if k < 8 then k else if k < 13 then k - 1 else if k < 18 then k - 2 else if k < 23 then k - 3 else k - 4;
        assert r[k] == id[src];
      }
    }
  }

  // ---------------------------------------------------------------------------
  // Capability listing and link format

  /** The `capabilities` resource's list: calvinsys names, then calvinlib names. */
  function CapabilityListing(calvinsys: seq<string>, calvinlib: seq<string>): (r: seq<string>)
    ensures |r| == |calvinsys| + |calvinlib|
    ensures r[..|calvinsys|] == calvinsys && r[|calvinsys|..] == calvinlib
  {
    calvinsys + calvinlib
  }

  /** The listing the `capabilities` resource renders, given the calvinsys names and
      the calvinlib instance `get_calvinlib` returns. */
  method RenderCapabilities(calvinsys: seq<string>, lib: Calvinlib.Instance) returns (listing: seq<string>)
    ensures |listing| >= |calvinsys| && listing[..|calvinsys|] == calvinsys
    ensures lib.Real? ==> (set n | n in listing[|calvinsys|..]) == lib.lib.capabilities.Keys
    ensures lib.Mock? ==> (set n | n in listing[|calvinsys|..]) == lib.mock.caps.Keys
    ensures forall i, j :: |calvinsys| <= i < j < |listing| ==> listing[i] != listing[j]
    ensures lib.Real? ==> |listing| == |calvinsys| + |lib.lib.capabilities|
    ensures lib.Mock? ==> |listing| == |calvinsys| + |lib.mock.caps|
  {
    var names;
    match lib {
      case Real(l) => names := l.ListCapabilities();
      case Mock(m) => names := m.ListCapabilities();
    }
    listing := CapabilityListing(calvinsys, names);
  }

  /** Python's `','.join(items)`. */
  function JoinComma(items: seq<string>): (r: string)
    ensures |items| >= 2 ==> ',' in r
  {
    if |items| == 0 then ""
    else if |items| == 1 then items[0]
    else items[0] + "," + JoinComma(items[1..])
  }

  /** Python's `s.split(',')`: always at least one part. */
  function SplitComma(s: string): (parts: seq<string>)
    ensures |parts| >= 1
    decreases |s|
  {
    match FirstIndex(s, ',')
    case None => [s]
    case Some(k) => [s[..k]] + SplitComma(s[k + 1..])
  }

  /** Splitting at a first comma that follows a comma-free part. */
  lemma SplitCommaAfter(a: string, b: string)
    requires ',' !in a
    ensures SplitComma(a + [','] + b) == [a] + SplitComma(b)
  {
    var s := a + [','] + b;
    FirstIndexAfterPrefix(a, ',', b);
    assert s[..|a|] == a;
    assert s[|a| + 1..] == b;
  }

  /** The link-format payload can be taken apart again at its commas, provided no
      entry itself contains one. */
  lemma {:induction false} JoinCommaSplits(items: seq<string>)
    requires |items| >= 1
    requires forall i :: 0 <= i < |items| ==> ',' !in items[i]
    ensures SplitComma(JoinComma(items)) == items
  {
    if |items| == 1 {
      assert FirstIndex(items[0], ',') == None;
    } else {
      var rest := JoinComma(items[1..]);
      assert JoinComma(items) == items[0] + [','] + rest;
      SplitCommaAfter(items[0], rest);
      JoinCommaSplits(items[1..]);
      assert items == [items[0]] + items[1..];
    }
  }

  /** The payload's length: every entry plus one separator between neighbours. */
  lemma {:induction false} JoinCommaLength(items: seq<string>)
    requires |items| >= 1
    ensures |JoinComma(items)| == |items| - 1 + TotalLength(items)
  {
    if |items| > 1 {
      JoinCommaLength(items[1..]);
    }
  }

  function TotalLength(items: seq<string>): nat {
    if items == [] then 0 else |items[0]| + TotalLength(items[1..])
  }

  // ---------------------------------------------------------------------------
  // Resource tree

  /** Which resource class a node of the tree is. */
  datatype Kind =
    | PlainResource
    | CoreResource(root: Resource)
    | ActorResource(node: Calvinlib.NodeRef)
    | ActorIdResource(node: Calvinlib.NodeRef, id: string)
    | ActorsResource(node: Calvinlib.NodeRef)
    | CapabilitiesResource
    | IdResource(node: Calvinlib.NodeRef)

  class Resource {
    const kind: Kind
    const visible: bool
    var children: map<string, Resource>

    constructor (kind: Kind, visible: bool)
      ensures this.kind == kind && this.visible == visible && children == map[]
    {
      this.kind := kind;
      this.visible := visible;
      children := map[];
    }

    /** `putChild`: attaches `child` under the segment `path`. */
    method PutChild(path: string, child: Resource)
      modifies this
      ensures children == old(children)[path := child]
    {
      children := children[path := child];
    }
  }

  /** `_ActorResource.getChild`: every segment under `actor` names an actor id. */
  method ActorGetChild(actor: Resource, path: string) returns (r: Resource)
    requires actor.kind.ActorResource?
    ensures fresh(r) && r.kind == ActorIdResource(actor.kind.node, path) && r.children == map[]
    ensures !r.visible
  {
    r := new Resource(ActorIdResource(actor.kind.node, path), false);
  }

  /** The storage key an actor-id resource asks for. */
  function ActorKey(r: Resource): (key: string)
    requires r.kind.ActorIdResource?
    ensures |key| == |r.kind.id| + 4 && StripDashes(key) == r.kind.id
  {
    FormatActorIdRoundTrip(r.kind.id);
    FormatActorId(r.kind.id)
  }

  /** The first steps of the server's constructor: `.well-known` goes under the root,
      then `core` goes under `.well-known`; the object is shared, so the root sees it. */
  method AttachWellKnown(root: Resource) returns (wellKnown: Resource)
    modifies root
    ensures fresh(wellKnown) && wellKnown.kind == PlainResource && !wellKnown.visible
    ensures root.children == old(root.children)[".well-known" := wellKnown]
    ensures wellKnown.children.Keys == {"core"} && wellKnown.children["core"].kind == CoreResource(root)
    ensures !wellKnown.children["core"].visible && fresh(wellKnown.children["core"])
    ensures wellKnown.children["core"].children == map[]
  {
    wellKnown := new Resource(PlainResource, false);
    root.PutChild(".well-known", wellKnown);
    var core := new Resource(CoreResource(root), false);
    wellKnown.PutChild("core", core);
  }

  /** The remaining steps: the four visible top-level resources. */
  method AttachRoutes(root: Resource, node: Calvinlib.NodeRef)
    modifies root
    ensures root.children.Keys == old(root.children).Keys + {"actor", "actors", "capabilities", "id"}
    ensures forall k :: k in old(root.children) && k !in {"actor", "actors", "capabilities", "id"} ==>
      root.children[k] == old(root.children)[k]
    ensures root.children["actor"].kind == ActorResource(node) && root.children["actor"].visible
    ensures root.children["actors"].kind == ActorsResource(node) && root.children["actors"].visible
    ensures root.children["capabilities"].kind == CapabilitiesResource && root.children["capabilities"].visible
    ensures root.children["id"].kind == IdResource(node) && root.children["id"].visible
    ensures forall k :: k in {"actor", "actors", "capabilities", "id"} ==> fresh(root.children[k])
    ensures forall k :: k in {"actor", "actors", "capabilities", "id"} ==> root.children[k].children == map[]
  {
    var actor := new Resource(ActorResource(node), true);
    root.PutChild("actor", actor);
    var actors := new Resource(ActorsResource(node), true);
    root.PutChild("actors", actors);
    var capabilities := new Resource(CapabilitiesResource, true);
    root.PutChild("capabilities", capabilities);
    var id := new Resource(IdResource(node), true);
    root.PutChild("id", id);
  }

  class CoAPServer {
    var root: Resource

    /** Builds the fixed tree: `.well-known/core` and the four top-level resources. */
    constructor (node: Calvinlib.NodeRef)
      ensures fresh(root) && root.kind == PlainResource && !root.visible
      ensures root.children.Keys == {".well-known", "actor", "actors", "capabilities", "id"}
      ensures root.children[".well-known"].kind == PlainResource && !root.children[".well-known"].visible
      ensures fresh(root.children[".well-known"])
      ensures root.children[".well-known"].children.Keys == {"core"}
      ensures root.children[".well-known"].children["core"].kind == CoreResource(root)
      ensures !root.children[".well-known"].children["core"].visible
      ensures root.children[".well-known"].children["core"].children == map[]
      ensures root.children["actor"].kind == ActorResource(node) && root.children["actor"].visible
      ensures root.children["actors"].kind == ActorsResource(node) && root.children["actors"].visible
      ensures root.children["capabilities"].kind == CapabilitiesResource && root.children["capabilities"].visible
      ensures root.children["id"].kind == IdResource(node) && root.children["id"].visible
      ensures forall k :: k in {"actor", "actors", "capabilities", "id"} ==> fresh(root.children[k])
      ensures forall k :: k in {"actor", "actors", "capabilities", "id"} ==> root.children[k].children == map[]
    {
      var r := new Resource(PlainResource, false);
      var wellKnown := AttachWellKnown(r);
      AttachRoutes(r, node);
      root := r;
    }
  }

  /** Any segment under the server's `actor` resource resolves to an id resource for
      exactly that segment, whose storage key is the dashed form of the segment. */
  method ResolveActor(server: CoAPServer, node: Calvinlib.NodeRef, segment: string) returns (r: Resource)
    requires "actor" in server.root.children && server.root.children["actor"].kind == ActorResource(node)
    ensures fresh(r) && r.kind == ActorIdResource(node, segment)
    ensures ActorKey(r) == FormatActorId(segment)
  {
    r := ActorGetChild(server.root.children["actor"], segment);
  }
}
