/**
 * The board-handler layer of the bowtie creator: the `Component` wrapper around
 * a footprint and the `M0WUTPcbHandler` that adds tracks and vias, looks up
 * components and nets, and clears routing.
 */
module Handler {
  import opened Wrappers
  import opened Kicad
  import opened Seqs

  /** The assertion failures the bowtie creator can raise. */
  datatype Error =
    | LayerNotAllowed(layer: KicadLayer)
    | MissingNet(name: string)
    | MissingComponent(reference: string)

  /** Python's `(deg + 360) % 360` on exact reals: floor modulo, so the result lies in [0, 360). */
  function NormaliseRotation(deg: real): (r: real)
    ensures 0.0 <= r < 360.0
    ensures (r - deg) / 360.0 == ((r - deg) / 360.0).Floor as real
  {
    var q := (deg + 360.0) / 360.0;
    var k := q.Floor;
    assert k as real <= q < k as real + 1.0;
    var r := deg + 360.0 - 360.0 * k as real;
    assert r == 360.0 * (q - k as real);
    assert (r - deg) / 360.0 == (1 - k) as real;
    assert ((1 - k) as real).Floor == 1 - k;
    r
  }

  /** The normalised rotation is the one angle in [0, 360) that differs from the input by whole turns. */
  lemma NormaliseRotationUnique(deg: real, r: real, turns: int)
    requires 0.0 <= r < 360.0
    requires r == deg + 360.0 * turns as real
    ensures NormaliseRotation(deg) == r
  {
    var n := NormaliseRotation(deg);
    var k := ((n - deg) / 360.0).Floor;
    assert n == deg + 360.0 * k as real;
    assert -360.0 < n - r < 360.0;
    assert n - r == 360.0 * (k - turns) as real;
    assert k == turns;
  }

  /** Normalising an already normalised angle changes nothing. */
  lemma NormaliseRotationIdempotent(deg: real)
    ensures NormaliseRotation(NormaliseRotation(deg)) == NormaliseRotation(deg)
  {
    NormaliseRotationUnique(NormaliseRotation(deg), NormaliseRotation(deg), 0);
  }

  lemma NormaliseRotationExamples()
    ensures NormaliseRotation(-10.0) == 350.0
    ensures NormaliseRotation(370.0) == 10.0
    ensures NormaliseRotation(0.0) == 0.0
  {
    NormaliseRotationUnique(-10.0, 350.0, 1);
    NormaliseRotationUnique(370.0, 10.0, -1);
    NormaliseRotationUnique(0.0, 0.0, 0);
  }

  /** The straight tracks a polyline through `points` decomposes into, in order. */
  function MultipointTracks(points: seq<Point>, netCode: int, layer: KicadLayer, width: real): (r: seq<BoardItem>)
    ensures |r| == if |points| == 0 then 0 else |points| - 1
    decreases |points|
  {
    if |points| < 2 then []
    else MultipointTracks(points[..|points| - 1], netCode, layer, width)
         + [Track(points[|points| - 2], points[|points| - 1], width, layer, netCode)]
  }

  /** Track i runs from point i to point i + 1 with the shared net, layer and width. */
  lemma {:induction false} MultipointTrackAt(points: seq<Point>, netCode: int, layer: KicadLayer, width: real, i: nat)
    requires i + 1 < |points|
    ensures MultipointTracks(points, netCode, layer, width)[i] == Track(points[i], points[i + 1], width, layer, netCode)
    decreases |points|
  {
    if i + 2 < |points| {
      var front := points[..|points| - 1];
      MultipointTrackAt(front, netCode, layer, width, i);
      assert front[i] == points[i] && front[i + 1] == points[i + 1];
    }
  }

  /** Consecutive tracks of a polyline share an endpoint, so the copper is continuous. */
  lemma MultipointTracksChained(points: seq<Point>, netCode: int, layer: KicadLayer, width: real, i: nat)
    requires i + 2 < |points|
    ensures var tracks := MultipointTracks(points, netCode, layer, width);
              tracks[i].Track? && tracks[i + 1].Track? && tracks[i].end == tracks[i + 1].start
  {
    MultipointTrackAt(points, netCode, layer, width, i);
    MultipointTrackAt(points, netCode, layer, width, i + 1);
  }

  /** What deleting every track leaves: the vias, in their original order. */
  function WithoutTracks(items: seq<BoardItem>): (r: seq<BoardItem>)
    ensures forall i :: 0 <= i < |r| ==> r[i].Via?
    ensures |r| <= |items|
    decreases |items|
  {
    if items == [] then []
    else
      var front := WithoutTracks(items[..|items| - 1]);
      var last := items[|items| - 1];
      assert items == items[..|items| - 1] + [last];
      if last.Via? then front + [last] else front
  }

  /** What deleting every via leaves: the tracks, in their original order. */
  function WithoutVias(items: seq<BoardItem>): (r: seq<BoardItem>)
    ensures forall i :: 0 <= i < |r| ==> r[i].Track?
    ensures |r| <= |items|
    decreases |items|
  {
    if items == [] then []
    else
      var front := WithoutVias(items[..|items| - 1]);
      var last := items[|items| - 1];
      assert items == items[..|items| - 1] + [last];
      if last.Track? then front + [last] else front
  }

  lemma WithoutTracksSnoc(items: seq<BoardItem>, x: BoardItem)
    ensures WithoutTracks(items + [x]) == if x.Via? then WithoutTracks(items) + [x] else WithoutTracks(items)
  {
    assert (items + [x])[..|items|] == items;
  }

  lemma WithoutViasSnoc(items: seq<BoardItem>, x: BoardItem)
    ensures WithoutVias(items + [x]) == if x.Track? then WithoutVias(items) + [x] else WithoutVias(items)
  {
    assert (items + [x])[..|items|] == items;
  }

  /** Deleting the tracks keeps exactly the vias. */
  lemma {:induction false} WithoutTracksMembers(items: seq<BoardItem>, x: BoardItem)
    ensures x in WithoutTracks(items) <==> x in items && x.Via?
    decreases |items|
  {
    if items != [] {
      var front := items[..|items| - 1];
      assert items == front + [items[|items| - 1]];
      WithoutTracksMembers(front, x);
    }
  }

  /** Deleting the vias keeps exactly the tracks. */
  lemma {:induction false} WithoutViasMembers(items: seq<BoardItem>, x: BoardItem)
    ensures x in WithoutVias(items) <==> x in items && x.Track?
    decreases |items|
  {
    if items != [] {
      var front := items[..|items| - 1];
      assert items == front + [items[|items| - 1]];
      WithoutViasMembers(front, x);
    }
  }

  /** Every item is either a track or a via: the two deletions partition the list. */
  lemma {:induction false} DeletionsPartition(items: seq<BoardItem>)
    ensures |WithoutTracks(items)| + |WithoutVias(items)| == |items|
    decreases |items|
  {
    if items != [] {
      DeletionsPartition(items[..|items| - 1]);
    }
  }

  /** Deleting tracks twice is the same as deleting them once. */
  lemma {:induction false} WithoutTracksIdempotent(items: seq<BoardItem>)
    ensures WithoutTracks(WithoutTracks(items)) == WithoutTracks(items)
    decreases |items|
  {
    if items != [] {
      var front := items[..|items| - 1];
      var last := items[|items| - 1];
      WithoutTracksIdempotent(front);
      if last.Via? {
        var w := WithoutTracks(front) + [last];
        assert w[..|w| - 1] == WithoutTracks(front);
      }
    }
  }

  /** Deleting all tracks and then all vias leaves no routing at all. */
  lemma {:induction false} DeleteTracksThenVias(items: seq<BoardItem>)
    ensures WithoutVias(WithoutTracks(items)) == []
    decreases |items|
  {
    if items != [] {
      var front, last := items[..|items| - 1], items[|items| - 1];
      assert items == front + [last];
      DeleteTracksThenVias(front);
      WithoutTracksSnoc(front, last);
      WithoutViasSnoc(WithoutTracks(front), last);
    }
  }

  /**
   * A handle on one footprint of the board. The host wrapper holds the footprint
   * object; here the handle names its reference and updates the board's record
   * of that footprint.
   */
  class Component {
    const board: Board
    const reference: string

    constructor (board: Board, reference: string)
      ensures this.board == board && this.reference == reference
    {
      this.board := board;
      this.reference := reference;
    }

    ghost predicate Valid()
      reads board
    {
      reference in board.footprints
    }

    /**
     * Moves the footprint to (xMm, yMm) on `layer`; only the two outer layers are
     * accepted. A given rotation is stored normalised; without one the rotation
     * is left as it was.
     */
    method SetPosition(xMm: real, yMm: real, layer: KicadLayer, rotationDeg: Option<real> := None)
      returns (r: Outcome<Error>)
      requires Valid()
      modifies board`footprints
      ensures Valid()
      ensures r.Pass? <==> layer == TOP || layer == BOTTOM
      ensures r.Fail? ==> r.error == LayerNotAllowed(layer) && board.footprints == old(board.footprints)
      ensures r.Pass? ==> board.footprints == old(board.footprints)[reference := Placement(
                xMm, yMm, layer,
                if rotationDeg.Some? then NormaliseRotation(rotationDeg.value)
                else old(board.footprints[reference].rotation),
                old(board.footprints[reference].referenceVisible))]
    {
      if layer != TOP && layer != BOTTOM {
        return Fail(LayerNotAllowed(layer));
      }
      var p := board.footprints[reference];
      p := p.(layer := layer, x := xMm, y := yMm);
      if rotationDeg.Some? {
        p := p.(rotation := NormaliseRotation(rotationDeg.value));
      }
      board.footprints := board.footprints[reference := p];
      r := Pass;
    }

    method SetReferenceVisible(visible: bool)
      requires Valid()
      modifies board`footprints
      ensures Valid()
      ensures board.footprints
           == old(board.footprints)[reference := old(board.footprints[reference]).(referenceVisible := visible)]
    {
      board.footprints := board.footprints[reference := board.footprints[reference].(referenceVisible := visible)];
    }

    method ShowReference()
      requires Valid()
      modifies board`footprints
      ensures Valid()
      ensures board.footprints
           == old(board.footprints)[reference := old(board.footprints[reference]).(referenceVisible := true)]
    {
      SetReferenceVisible(true);
    }

    method HideReference()
      requires Valid()
      modifies board`footprints
      ensures Valid()
      ensures board.footprints
           == old(board.footprints)[reference := old(board.footprints[reference]).(referenceVisible := false)]
    {
      SetReferenceVisible(false);
    }
  }

  /** The board handler with the sizes it falls back on when a call leaves them out. */
  class M0WUTPcbHandler {
    const board: Board
    const defaultViaHoleMm: real
    const defaultViaPadMm: real
    const defaultTrackWidthMm: real

    constructor (board: Board, defaultViaHoleMm: real := 0.45, defaultViaPadMm: real := 0.45,
                 defaultTrackWidthMm: real := 0.2)
      ensures this.board == board
      ensures this.defaultViaHoleMm == defaultViaHoleMm && this.defaultViaPadMm == defaultViaPadMm
      ensures this.defaultTrackWidthMm == defaultTrackWidthMm
    {
      this.board := board;
      this.defaultViaHoleMm := defaultViaHoleMm;
      this.defaultViaPadMm := defaultViaPadMm;
      this.defaultTrackWidthMm := defaultTrackWidthMm;
    }

    /** Appends a via; a missing hole or pad diameter takes the handler's default. */
    method AddVia(xPosMm: real, yPosMm: real, net: Net,
                  holeDiameterMm: Option<real> := None, padDiameterMm: Option<real> := None)
      modifies board`items
      ensures board.items == old(board.items) + [Via(
                Point(xPosMm, yPosMm),
                if holeDiameterMm.Some? then holeDiameterMm.value else defaultViaHoleMm,
                if padDiameterMm.Some? then padDiameterMm.value else defaultViaPadMm,
                net.code)]
    {
      var drill := holeDiameterMm.GetOr(defaultViaHoleMm);
      var diameter := padDiameterMm.GetOr(defaultViaPadMm);
      board.items := board.items + [Via(Point(xPosMm, yPosMm), drill, diameter, net.code)];
    }

    /** Appends a straight track; a missing width takes the handler's default. */
    method AddTrack(startXMm: real, startYMm: real, endXMm: real, endYMm: real, net: Net,
                    layer: KicadLayer, widthMm: Option<real> := None)
      modifies board`items
      ensures board.items == old(board.items) + [Track(
                Point(startXMm, startYMm), Point(endXMm, endYMm),
                if widthMm.Some? then widthMm.value else defaultTrackWidthMm,
                layer, net.code)]
    {
      var width := widthMm.GetOr(defaultTrackWidthMm);
      board.items := board.items + [Track(Point(startXMm, startYMm), Point(endXMm, endYMm), width, layer, net.code)];
    }

    /** Appends one track per pair of consecutive points. */
    method AddMultipointTrack(points: seq<Point>, net: Net, layer: KicadLayer, width: Option<real> := None)
      modifies board`items
      ensures board.items == old(board.items)
                + MultipointTracks(points, net.code, layer, width.GetOr(defaultTrackWidthMm))
    {
      var w := width.GetOr(defaultTrackWidthMm);
      var index := 0;
      while index + 1 < |points|
        invariant |points| == 0 ==> index == 0
        invariant |points| > 0 ==> index < |points|
        invariant board.items == old(board.items)
                    + MultipointTracks(points[..if |points| == 0 then 0 else index + 1], net.code, layer, w)
      {
        var start := points[index];
        var end := points[index + 1];
        AddTrack(start.x, start.y, end.x, end.y, net, layer, width);
        assert points[..index + 2][..index + 1] == points[..index + 1];
        index := index + 1;
      }
      assert |points| > 0 ==> points[..index + 1] == points;
    }

    /** A handle on the footprint with this reference, or None when the board has none. */
    method GetComponent(componentReference: string) returns (r: Option<Component>)
      ensures r.Some? <==> componentReference in board.footprints
      ensures r.Some? ==> fresh(r.value) && r.value.board == board && r.value.reference == componentReference
    {
      if componentReference in board.footprints {
        var c := new Component(board, componentReference);
        r := Some(c);
      } else {
        r := None;
      }
    }

    /** The net with this name and its code, or None when the board has none. */
    function GetNet(netName: string): (r: Option<Net>)
      reads board
      ensures r.Some? <==> netName in board.nets
      ensures r.Some? ==> r.value.name == netName && r.value.code == board.nets[netName]
    {
      if netName in board.nets then Some(Net(netName, board.nets[netName])) else None
    }

    /** Deletes every track, walking a snapshot of the routing list; vias stay. */
    method DeleteAllTracks()
      modifies board`items
      ensures board.items == WithoutTracks(old(board.items))
    {
      var tracks := board.items;
      var kept: seq<BoardItem> := [];
      var i := 0;
      while i < |tracks|
        invariant 0 <= i <= |tracks|
        invariant kept == WithoutTracks(tracks[..i])
        invariant board.items == kept + tracks[i..]
      {
        TakeOneMore(tracks, i);
        DropOneMore(tracks, i);
        WithoutTracksSnoc(tracks[..i], tracks[i]);
        if tracks[i].Track? {
          board.items := kept + tracks[i + 1..];
        } else {
          ShiftOne(kept, tracks[i], tracks[i + 1..]);
          kept := kept + [tracks[i]];
        }
        i := i + 1;
      }
      TakeAll(tracks);
    }

    /** Deletes every via, walking a snapshot of the routing list; tracks stay. */
    method DeleteAllVias()
      modifies board`items
      ensures board.items == WithoutVias(old(board.items))
    {
      var tracks := board.items;
      var kept: seq<BoardItem> := [];
      var i := 0;
      while i < |tracks|
        invariant 0 <= i <= |tracks|
        invariant kept == WithoutVias(tracks[..i])
        invariant board.items == kept + tracks[i..]
      {
        TakeOneMore(tracks, i);
        DropOneMore(tracks, i);
        WithoutViasSnoc(tracks[..i], tracks[i]);
        if tracks[i].Via? {
          board.items := kept + tracks[i + 1..];
        } else {
          ShiftOne(kept, tracks[i], tracks[i + 1..]);
          kept := kept + [tracks[i]];
        }
        i := i + 1;
      }
      TakeAll(tracks);
    }

    /** Removes every item of the routing list, tracks and vias alike. */
    method DeleteAllTracksAndVias()
      modifies board`items
      ensures board.items == []
    {
      var tracks := board.items;
      var i := 0;
      while i < |tracks|
        invariant 0 <= i <= |tracks|
        invariant board.items == tracks[i..]
      {
        board.items := tracks[i + 1..];
        i := i + 1;
      }
    }
  }
}
