/** The scene's deterministic world generator and its bookkeeping: chunk
    visitation, house placement, eviction behind the camera, and the driving
    control applied to the car every frame. */
module GameScene {
  import opened SeededRandom

  datatype Option<T> = None | Some(value: T)

  /** Wall colours of the six house textures `house_0` .. `house_5`. */
  const HouseColors: seq<int> := [0xc0392b, 0x2980b9, 0x27ae60, 0x8e44ad, 0xd35400, 0x16a085]
  /** Width in pixels of one chunk of world space. */
  const ChunkWidth: real := 350.0
  /** Chance threshold under which a chunk gets a house. */
  const HouseThreshold: real := 0.6
  /** Chunks generated beyond the right edge of the camera. */
  const Lookahead: int := 2
  /** How far behind the camera's left edge a house survives. */
  const EvictionDistance: real := 400.0
  /** Acceleration while the right key is held. */
  const DriveAcceleration: real := 500.0
  /** The road's height, fixed when the scene is created. */
  const RoadHeight: real := 80.0

  /** A house image: anchored at (x, y) (bottom-centre), drawn with texture
      `house_<colorIdx>`. */
  datatype House = House(x: real, y: real, colorIdx: int)

  /** The chunk a world x-coordinate falls in. */
  function ChunkAt(x: real): (c: int)
    ensures c as real * ChunkWidth <= x < c as real * ChunkWidth + ChunkWidth
  {
    (x / ChunkWidth).Floor
  }

  /** The chunk a house belongs to, recovered from its position. */
  function ChunkOf(h: House): int {
    ChunkAt(h.x)
  }

  /** The house chunk `chunk` gets, if any: a pure function of the chunk
      index, with one seed channel per decision. */
  function ChunkHouse(chunk: int, roadTop: real): Option<House>
    requires chunk >= 0
  {
    var rand := Random(chunk * 7 + 1);
    var xOffset := Random(chunk * 11 + 5) * (ChunkWidth - 100.0);
    var x := chunk as real * ChunkWidth + 50.0 + xOffset;
    if rand < HouseThreshold then
      var colorIdx := (Random(chunk * 17 + 7) * |HouseColors| as real).Floor;
      var yOffset := Random(chunk * 19 + 9) * 30.0;
      Some(House(x, roadTop - 24.0 - yOffset, colorIdx))
    else
      None
  }

  /** A chunk has a house exactly when its presence channel is under the
      threshold; the house stands inside its chunk, between 50 and 300 px
      from the chunk's left edge, uses one of the six textures, and sits
      24 to 54 px above the road. */
  lemma HouseWithinChunk(chunk: int, roadTop: real)
    requires chunk >= 0
    ensures ChunkHouse(chunk, roadTop).Some? <==> Random(chunk * 7 + 1) < HouseThreshold
    ensures ChunkHouse(chunk, roadTop).Some? ==>
      var h := ChunkHouse(chunk, roadTop).value;
      chunk as real * ChunkWidth + 50.0 <= h.x < chunk as real * ChunkWidth + 300.0 &&
      ChunkOf(h) == chunk &&
      0 <= h.colorIdx < |HouseColors| &&
      roadTop - 54.0 < h.y <= roadTop - 24.0
  {
  }

  /** `h` is the house that its own chunk deterministically produces. */
  predicate IsChunkHouse(h: House, roadTop: real) {
    ChunkOf(h) >= 0 && ChunkHouse(ChunkOf(h), roadTop) == Some(h)
  }

  /** No two houses of `hs` come from the same chunk. */
  predicate DistinctChunks(hs: seq<House>) {
    forall i, j :: 0 <= i < j < |hs| ==> ChunkOf(hs[i]) != ChunkOf(hs[j])
  }

  /** The houses of `hs` come from strictly increasing chunks. */
  predicate IncreasingChunks(hs: seq<House>) {
    forall i, j :: 0 <= i < j < |hs| ==> ChunkOf(hs[i]) < ChunkOf(hs[j])
  }

  /** Every generated chunk is non-negative, every live house is the
      deterministic house of a generated chunk, and no chunk has two. */
  predicate WorldInvariant(chunks: set<int>, houses: seq<House>, roadTop: real) {
    (forall c :: c in chunks ==> c >= 0) &&
    (forall i :: 0 <= i < |houses| ==> IsChunkHouse(houses[i], roadTop) && ChunkOf(houses[i]) in chunks) &&
    DistinctChunks(houses)
  }

  /** The first chunk the camera asks for. */
  function StartChunk(scrollX: real): (c: int)
    ensures c as real * ChunkWidth <= scrollX < c as real * ChunkWidth + ChunkWidth
  {
    ChunkAt(scrollX)
  }

  /** The last chunk the camera asks for: two past the one under its right edge. */
  function EndChunk(scrollX: real, camWidth: real): (c: int)
    ensures (c - Lookahead) as real * ChunkWidth <= scrollX + camWidth < (c - Lookahead) as real * ChunkWidth + ChunkWidth
  {
    ChunkAt(scrollX + camWidth) + Lookahead
  }

  /** The non-negative chunk indices in [lo, hi]. */
  function ChunkSpan(lo: int, hi: int): (span: set<int>)
    ensures forall c :: c in span <==> lo <= c <= hi && 0 <= c
    decreases hi - lo
  {
    if hi < lo then {}
    else ChunkSpan(lo, hi - 1) + (if hi < 0 then {} else {hi})
  }

  /** The houses one visit of chunks lo..hi appends, in chunk order, when the
      chunks in `visited` have already been generated. */
  function Spawned(lo: int, hi: int, visited: set<int>, roadTop: real): seq<House>
    decreases hi - lo
  {
    if hi < lo then []
    else
      var earlier := Spawned(lo, hi - 1, visited, roadTop);
      if hi < 0 || hi in visited then earlier
      else match ChunkHouse(hi, roadTop)
        case Some(h) => earlier + [h]
        case None => earlier
  }

  /** Concatenation of house lists is associative. */
  lemma AppendAssoc(a: seq<House>, b: seq<House>, c: seq<House>)
    ensures (a + b) + c == a + (b + c)
  {
  }

  /** One more chunk that is negative or already generated adds nothing. */
  lemma SpawnedSkip(lo: int, chunk: int, visited: set<int>, roadTop: real)
    requires lo <= chunk && (chunk < 0 || chunk in visited)
    ensures Spawned(lo, chunk, visited, roadTop) == Spawned(lo, chunk - 1, visited, roadTop)
    ensures visited + ChunkSpan(lo, chunk) == visited + ChunkSpan(lo, chunk - 1)
  {
  }

  /** One more fresh chunk adds its house, if it has one. */
  lemma SpawnedNext(lo: int, chunk: int, visited: set<int>, roadTop: real)
    requires lo <= chunk && 0 <= chunk && chunk !in visited
    ensures ChunkHouse(chunk, roadTop).Some? ==>
      Spawned(lo, chunk, visited, roadTop) == Spawned(lo, chunk - 1, visited, roadTop) + [ChunkHouse(chunk, roadTop).value]
    ensures ChunkHouse(chunk, roadTop).None? ==>
      Spawned(lo, chunk, visited, roadTop) == Spawned(lo, chunk - 1, visited, roadTop)
    ensures visited + ChunkSpan(lo, chunk) == (visited + ChunkSpan(lo, chunk - 1)) + {chunk}
  {
  }

  /** Every house a visit appends is the deterministic house of a fresh,
      non-negative chunk in the visited range, and the chunks increase. */
  lemma {:induction false} SpawnedFromFreshChunks(lo: int, hi: int, visited: set<int>, roadTop: real)
    ensures forall i :: 0 <= i < |Spawned(lo, hi, visited, roadTop)| ==>
      var h := Spawned(lo, hi, visited, roadTop)[i];
      lo <= ChunkOf(h) <= hi && ChunkOf(h) !in visited && IsChunkHouse(h, roadTop)
    ensures IncreasingChunks(Spawned(lo, hi, visited, roadTop))
    decreases hi - lo
  {
    if hi >= lo {
      SpawnedFromFreshChunks(lo, hi - 1, visited, roadTop);
      if hi >= 0 {
        HouseWithinChunk(hi, roadTop);
      }
    }
  }

  /** A chunk gets a house in a visit exactly when it is in range,
      non-negative, not yet generated, and its presence channel is under the
      threshold. */
  lemma {:induction false} SpawnedHouseFor(lo: int, hi: int, visited: set<int>, roadTop: real, chunk: int)
    ensures (exists h :: h in Spawned(lo, hi, visited, roadTop) && ChunkOf(h) == chunk) <==>
      (lo <= chunk <= hi && chunk >= 0 && chunk !in visited && Random(chunk * 7 + 1) < HouseThreshold)
    decreases hi - lo
  {
    SpawnedFromFreshChunks(lo, hi, visited, roadTop);
    if hi >= lo {
      SpawnedHouseFor(lo, hi - 1, visited, roadTop, chunk);
      if hi == chunk && chunk >= 0 && chunk !in visited && Random(chunk * 7 + 1) < HouseThreshold {
        var h := ChunkHouse(chunk, roadTop).value;
        assert h == Spawned(lo, hi, visited, roadTop)[|Spawned(lo, hi, visited, roadTop)| - 1];
      }
    }
  }

  /** Revisiting: when every chunk of the range is already generated, a visit
      appends nothing. */
  lemma {:induction false} SpawnedNothingWhenVisited(lo: int, hi: int, visited: set<int>, roadTop: real)
    requires ChunkSpan(lo, hi) <= visited
    ensures Spawned(lo, hi, visited, roadTop) == []
    decreases hi - lo
  {
    if hi >= lo {
      assert ChunkSpan(lo, hi - 1) <= ChunkSpan(lo, hi);
      SpawnedNothingWhenVisited(lo, hi - 1, visited, roadTop);
      assert hi >= 0 ==> hi in ChunkSpan(lo, hi);
    }
  }

  /** Generated chunks outside the range do not affect a visit. */
  lemma {:induction false} SpawnedIgnoresOutside(lo: int, hi: int, visited: set<int>, other: set<int>, roadTop: real)
    requires forall c :: c in other ==> c < lo || hi < c
    ensures Spawned(lo, hi, visited + other, roadTop) == Spawned(lo, hi, visited, roadTop)
    decreases hi - lo
  {
    if hi >= lo {
      SpawnedIgnoresOutside(lo, hi - 1, visited, other, roadTop);
    }
  }

  /** Visiting lo..mid and then mid+1..hi appends the same houses as visiting
      lo..hi at once: what a chunk yields does not depend on how the range
      was split into frames. */
  lemma {:induction false} SpawnedSplit(lo: int, mid: int, hi: int, visited: set<int>, roadTop: real)
    requires lo - 1 <= mid <= hi
    ensures Spawned(lo, mid, visited, roadTop) + Spawned(mid + 1, hi, visited + ChunkSpan(lo, mid), roadTop)
         == Spawned(lo, hi, visited, roadTop)
    decreases hi - mid
  {
    SpawnedIgnoresOutside(mid + 1, hi, visited, ChunkSpan(lo, mid), roadTop);
    if hi > mid {
      SpawnedSplit(lo, mid, hi - 1, visited, roadTop);
      SpawnedIgnoresOutside(mid + 1, hi - 1, visited, ChunkSpan(lo, mid), roadTop);
      if 0 <= hi && hi !in visited && ChunkHouse(hi, roadTop).Some? {
        AppendAssoc(Spawned(lo, mid, visited, roadTop), Spawned(mid + 1, hi - 1, visited, roadTop),
                    [ChunkHouse(hi, roadTop).value]);
      }
    }
  }

  /** A visit keeps the world invariant: the new houses come from chunks
      that were not generated before, so they clash with no live house. */
  lemma VisitKeepsInvariant(chunks: set<int>, houses: seq<House>, lo: int, hi: int, roadTop: real)
    requires WorldInvariant(chunks, houses, roadTop)
    ensures WorldInvariant(chunks + ChunkSpan(lo, hi), houses + Spawned(lo, hi, chunks, roadTop), roadTop)
  {
    var added := Spawned(lo, hi, chunks, roadTop);
    var all := houses + added;
    SpawnedFromFreshChunks(lo, hi, chunks, roadTop);
    forall i, j | 0 <= i < j < |all|
      ensures ChunkOf(all[i]) != ChunkOf(all[j])
    {
      if j >= |houses| && i < |houses| {
        assert all[j] == added[j - |houses|];
      } else if i >= |houses| {
        assert all[i] == added[i - |houses|] && all[j] == added[j - |houses|];
      }
    }
  }

  /** The houses that survive `cleanupHouses`, in their original order. */
  function Kept(hs: seq<House>, camLeft: real): seq<House> {
    if hs == [] then []
    else
      var last := hs[|hs| - 1];
      Kept(hs[..|hs| - 1], camLeft) + (if last.x < camLeft then [] else [last])
  }

  /** The houses `cleanupHouses` destroys, in the order it destroys them. */
  function Evicted(hs: seq<House>, camLeft: real): seq<House> {
    if hs == [] then []
    else
      var last := hs[|hs| - 1];
      Evicted(hs[..|hs| - 1], camLeft) + (if last.x < camLeft then [last] else [])
  }

  /** A house is kept exactly when it was present and is not left of
      `camLeft`; it is destroyed exactly when it was present and is. */
  lemma {:induction false} KeptMembers(hs: seq<House>, camLeft: real, h: House)
    ensures h in Kept(hs, camLeft) <==> h in hs && h.x >= camLeft
    ensures h in Evicted(hs, camLeft) <==> h in hs && h.x < camLeft
  {
    if hs != [] {
      KeptMembers(hs[..|hs| - 1], camLeft, h);
      assert hs == hs[..|hs| - 1] + [hs[|hs| - 1]];
    }
  }

  /** Filtering distributes over concatenation, so relative order is kept. */
  lemma {:induction false} KeptAppend(a: seq<House>, b: seq<House>, camLeft: real)
    ensures Kept(a + b, camLeft) == Kept(a, camLeft) + Kept(b, camLeft)
    ensures Evicted(a + b, camLeft) == Evicted(a, camLeft) + Evicted(b, camLeft)
    decreases |b|
  {
    if b != [] {
      var b' := b[..|b| - 1];
      assert (a + b)[..|a + b| - 1] == a + b';
      KeptAppend(a, b', camLeft);
    } else {
      assert a + b == a;
    }
  }

  /** The multiset of a non-empty list splits off its last element. */
  lemma MultisetSnoc(hs: seq<House>)
    requires hs != []
    ensures multiset(hs) == multiset(hs[..|hs| - 1]) + multiset{hs[|hs| - 1]}
  {
    assert hs == hs[..|hs| - 1] + [hs[|hs| - 1]];
  }

  /** Moving one house onto either side of a partition keeps it a partition
      of the list extended by that house. */
  lemma SnocPartition(whole: multiset<House>, kept: seq<House>, evicted: seq<House>, last: House,
                      kept': seq<House>, evicted': seq<House>)
    requires multiset(kept) + multiset(evicted) == whole
    requires (kept' == kept && evicted' == evicted + [last]) || (kept' == kept + [last] && evicted' == evicted)
    ensures multiset(kept') + multiset(evicted') == whole + multiset{last}
  {
  }

  /** The last house of a non-empty list is either kept or destroyed, so the
      partition of the shorter list extends to the whole list. */
  lemma PartitionStep(hs: seq<House>, camLeft: real)
    requires hs != []
    requires multiset(Kept(hs[..|hs| - 1], camLeft)) + multiset(Evicted(hs[..|hs| - 1], camLeft)) == multiset(hs[..|hs| - 1])
    ensures multiset(Kept(hs, camLeft)) + multiset(Evicted(hs, camLeft)) == multiset(hs)
  {
    var init, last := hs[..|hs| - 1], hs[|hs| - 1];
    MultisetSnoc(hs);
    SnocPartition(multiset(init), Kept(init, camLeft), Evicted(init, camLeft), last,
                  Kept(hs, camLeft), Evicted(hs, camLeft));
  }

  /** Every house ends up either kept or destroyed, and none twice. */
  lemma {:induction false} KeptEvictedPartition(hs: seq<House>, camLeft: real)
    ensures multiset(Kept(hs, camLeft)) + multiset(Evicted(hs, camLeft)) == multiset(hs)
  {
    if hs != [] {
      KeptEvictedPartition(hs[..|hs| - 1], camLeft);
      PartitionStep(hs, camLeft);
    }
  }

  /** Cleaning up twice at the same scroll removes nothing the second time. */
  lemma {:induction false} KeptIdempotent(hs: seq<House>, camLeft: real)
    ensures Kept(Kept(hs, camLeft), camLeft) == Kept(hs, camLeft)
    ensures Evicted(Kept(hs, camLeft), camLeft) == []
  {
    if hs != [] {
      var init := hs[..|hs| - 1];
      var last := hs[|hs| - 1];
      KeptIdempotent(init, camLeft);
      var tail := if last.x < camLeft then [] else [last];
      KeptAppend(Kept(init, camLeft), tail, camLeft);
      if tail != [] {
        assert Kept(tail, camLeft) == Kept([], camLeft) + tail;
        assert Evicted(tail, camLeft) == Evicted([], camLeft);
      }
    }
  }

  /** When no house is left of `camLeft`, nothing is removed. */
  lemma {:induction false} KeptAllInView(hs: seq<House>, camLeft: real)
    requires forall i :: 0 <= i < |hs| ==> hs[i].x >= camLeft
    ensures Kept(hs, camLeft) == hs
    ensures Evicted(hs, camLeft) == []
  {
    if hs != [] {
      var init, last := hs[..|hs| - 1], hs[|hs| - 1];
      forall i | 0 <= i < |init|
        ensures init[i].x >= camLeft
      {
        assert init[i] == hs[i];
      }
      KeptAllInView(init, camLeft);
      assert last.x >= camLeft;
      assert Kept(hs, camLeft) == init + [last] && Evicted(hs, camLeft) == [];
      assert hs == init + [last];
    }
  }

  /** Filtering keeps houses of distinct chunks distinct. */
  lemma {:induction false} KeptDistinct(hs: seq<House>, camLeft: real)
    requires DistinctChunks(hs)
    ensures DistinctChunks(Kept(hs, camLeft))
  {
    if hs != [] {
      var init := hs[..|hs| - 1];
      var last := hs[|hs| - 1];
      assert DistinctChunks(init);
      KeptDistinct(init, camLeft);
      var k := Kept(init, camLeft);
      forall i | 0 <= i < |k|
        ensures ChunkOf(k[i]) != ChunkOf(last)
      {
        KeptMembers(init, camLeft, k[i]);
        var m :| 0 <= m < |init| && init[m] == k[i];
        assert hs[m] == k[i];
      }
    }
  }

  /** Cleanup keeps the world invariant: it only drops houses. */
  lemma CleanupKeepsInvariant(chunks: set<int>, houses: seq<House>, camLeft: real, roadTop: real)
    requires WorldInvariant(chunks, houses, roadTop)
    ensures WorldInvariant(chunks, Kept(houses, camLeft), roadTop)
  {
    var kept := Kept(houses, camLeft);
    KeptDistinct(houses, camLeft);
    forall i | 0 <= i < |kept|
      ensures IsChunkHouse(kept[i], roadTop) && ChunkOf(kept[i]) in chunks
    {
      KeptMembers(houses, camLeft, kept[i]);
    }
  }

  /** Every house a visit appends lies at least 50 px right of the start of
      the first chunk asked for. */
  lemma {:induction false} SpawnedRightOf(lo: int, hi: int, visited: set<int>, roadTop: real)
    ensures forall i :: 0 <= i < |Spawned(lo, hi, visited, roadTop)| ==>
      Spawned(lo, hi, visited, roadTop)[i].x >= lo as real * ChunkWidth + 50.0
    decreases hi - lo
  {
    if hi >= lo {
      SpawnedRightOf(lo, hi - 1, visited, roadTop);
    }
  }

  /** A house spawned in the frame's visit is never destroyed by the same
      frame's cleanup: its chunk starts at or right of the camera's chunk,
      which is less than 400 px behind the camera. */
  lemma SpawnedSurvivesCleanup(scrollX: real, camWidth: real, visited: set<int>, roadTop: real)
    ensures Kept(Spawned(StartChunk(scrollX), EndChunk(scrollX, camWidth), visited, roadTop), scrollX - EvictionDistance)
         == Spawned(StartChunk(scrollX), EndChunk(scrollX, camWidth), visited, roadTop)
    ensures Evicted(Spawned(StartChunk(scrollX), EndChunk(scrollX, camWidth), visited, roadTop), scrollX - EvictionDistance)
         == []
  {
    var lo, hi := StartChunk(scrollX), EndChunk(scrollX, camWidth);
    SpawnedRightOf(lo, hi, visited, roadTop);
    KeptAllInView(Spawned(lo, hi, visited, roadTop), scrollX - EvictionDistance);
  }

  /** The arcade-physics body of the car: only the two quantities the scene
      sets each frame. */
  class CarBody {
    var accelerationX: real
    var velocityX: real

    constructor ()
      ensures accelerationX == 0.0 && velocityX == 0.0
    {
      accelerationX, velocityX := 0.0, 0.0;
    }
  }

  class Scene {
    /** Vertical centre of the road: half the scene's height. */
    const roadY: real
    const car: CarBody
    /** Chunks already visited by the generator; they are never removed. */
    var generatedChunks: set<int>
    /** The live house images, oldest first. */
    var houses: seq<House>

    /** The y-coordinate of the road's top edge. */
    function RoadTop(): real {
      roadY - RoadHeight / 2.0
    }

    ghost predicate Valid()
      reads this
    {
      WorldInvariant(generatedChunks, houses, RoadTop())
    }

    /** `create`: the scene starts with nothing generated and a car at rest. */
    constructor (height: real)
      ensures Valid()
      ensures roadY == height / 2.0 && RoadTop() == height / 2.0 - 40.0
      ensures generatedChunks == {} && houses == []
      ensures fresh(car) && car.accelerationX == 0.0 && car.velocityX == 0.0
    {
      roadY := height / 2.0;
      car := new CarBody();
      generatedChunks := {};
      houses := [];
    }

    /** `spawnHouses`: visit every chunk from the camera's to two past its
        right edge, skipping negative and already generated chunks. */
    method SpawnHouses(scrollX: real, camWidth: real)
      modifies this
      ensures old(Valid()) ==> Valid()
      ensures generatedChunks == old(generatedChunks) + ChunkSpan(StartChunk(scrollX), EndChunk(scrollX, camWidth))
      ensures houses == old(houses) + Spawned(StartChunk(scrollX), EndChunk(scrollX, camWidth), old(generatedChunks), RoadTop())
    {
      var startChunk := ChunkAt(scrollX);
      var endChunk := ChunkAt(scrollX + camWidth) + Lookahead;
      ghost var visited := generatedChunks;
      ghost var added: seq<House> := [];
      var chunk := startChunk;
      while chunk <= endChunk
        invariant startChunk <= chunk && (chunk == startChunk || chunk <= endChunk + 1)
        invariant generatedChunks == visited + ChunkSpan(startChunk, chunk - 1)
        invariant houses == old(houses) + added
        invariant added == Spawned(startChunk, chunk - 1, visited, RoadTop())
      {
        assert chunk !in ChunkSpan(startChunk, chunk - 1);
        if chunk < 0 || chunk in generatedChunks {
          SpawnedSkip(startChunk, chunk, visited, RoadTop());
          chunk := chunk + 1;
          continue;
        }
        SpawnedNext(startChunk, chunk, visited, RoadTop());
        generatedChunks := generatedChunks + {chunk};

        var rand := Random(chunk * 7 + 1);
        var xOffset := Random(chunk * 11 + 5) * (ChunkWidth - 100.0);
        var x := chunk as real * ChunkWidth + 50.0 + xOffset;
        var roadTop := RoadTop();
        if rand < HouseThreshold {
          var colorIdx := (Random(chunk * 17 + 7) * |HouseColors| as real).Floor;
          var yOffset := Random(chunk * 19 + 9) * 30.0;
          var house := House(x, roadTop - 24.0 - yOffset, colorIdx);
          assert ChunkHouse(chunk, RoadTop()) == Some(house);
          AppendAssoc(old(houses), added, [house]);
          houses := houses + [house];
          added := added + [house];
        }
        chunk := chunk + 1;
      }
      if old(Valid()) {
        VisitKeepsInvariant(visited, old(houses), startChunk, endChunk, RoadTop());
      }
      assert ChunkSpan(startChunk, chunk - 1) == ChunkSpan(startChunk, endChunk);
      assert Spawned(startChunk, chunk - 1, visited, RoadTop()) == Spawned(startChunk, endChunk, visited, RoadTop());
    }

    /** `cleanupHouses`: keep the houses not more than 400 px behind the
        camera's left edge; the others are destroyed and returned. */
    method CleanupHouses(scrollX: real) returns (destroyed: seq<House>)
      modifies this
      ensures old(Valid()) ==> Valid()
      ensures generatedChunks == old(generatedChunks)
      ensures houses == Kept(old(houses), scrollX - EvictionDistance)
      ensures destroyed == Evicted(old(houses), scrollX - EvictionDistance)
    {
      var camLeft := scrollX - EvictionDistance;
      var kept: seq<House> := [];
      destroyed := [];
      for i := 0 to |houses|
        invariant kept == Kept(houses[..i], camLeft)
        invariant destroyed == Evicted(houses[..i], camLeft)
      {
        var house := houses[i];
        assert houses[..i + 1][..i] == houses[..i];
        if house.x < camLeft {
          destroyed := destroyed + [house];
        } else {
          kept := kept + [house];
        }
      }
      assert houses[..|houses|] == houses;
      if Valid() {
        CleanupKeepsInvariant(generatedChunks, houses, camLeft, RoadTop());
      }
      houses := kept;
    }

    /** The driving control of `update`: accelerate while right is held, and
        never let the car roll backwards. */
    method DriveControl(rightIsDown: bool)
      modifies car
      ensures car.accelerationX == if rightIsDown then DriveAcceleration else 0.0
      ensures car.velocityX == if old(car.velocityX) < 0.0 then 0.0 else old(car.velocityX)
      ensures car.velocityX >= 0.0
    {
      if rightIsDown {
        car.accelerationX := DriveAcceleration;
      } else {
        car.accelerationX := 0.0;
      }
      if car.velocityX < 0.0 {
        car.velocityX := 0.0;
      }
    }

    /** `update`: one frame, given the keyboard state and the camera that the
        engine's follow policy has already placed. */
    method Update(rightIsDown: bool, scrollX: real, camWidth: real) returns (destroyed: seq<House>)
      modifies this, car
      ensures old(Valid()) ==> Valid()
      ensures car.accelerationX == if rightIsDown then DriveAcceleration else 0.0
      ensures car.velocityX == if old(car.velocityX) < 0.0 then 0.0 else old(car.velocityX)
      ensures car.velocityX >= 0.0
      ensures generatedChunks == old(generatedChunks) + ChunkSpan(StartChunk(scrollX), EndChunk(scrollX, camWidth))
      ensures houses == Kept(old(houses), scrollX - EvictionDistance)
        + Spawned(StartChunk(scrollX), EndChunk(scrollX, camWidth), old(generatedChunks), RoadTop())
      ensures destroyed == Evicted(old(houses), scrollX - EvictionDistance)
    {
      DriveControl(rightIsDown);
      ghost var lo, hi, camLeft := StartChunk(scrollX), EndChunk(scrollX, camWidth), scrollX - EvictionDistance;
      ghost var before := houses;
      ghost var added := Spawned(lo, hi, generatedChunks, RoadTop());
      SpawnHouses(scrollX, camWidth);
      assert houses == before + added;
      destroyed := CleanupHouses(scrollX);
      KeptAppend(before, added, camLeft);
      SpawnedSurvivesCleanup(scrollX, camWidth, old(generatedChunks), RoadTop());
    }
  }

  /** Asking for the same camera twice generates nothing new the second time. */
  method RevisitSpawnsNothing(scene: Scene, scrollX: real, camWidth: real)
    modifies scene
    ensures old(scene.Valid()) ==> scene.Valid()
    ensures scene.generatedChunks == old(scene.generatedChunks) + ChunkSpan(StartChunk(scrollX), EndChunk(scrollX, camWidth))
    ensures scene.houses == old(scene.houses)
      + Spawned(StartChunk(scrollX), EndChunk(scrollX, camWidth), old(scene.generatedChunks), scene.RoadTop())
  {
    scene.SpawnHouses(scrollX, camWidth);
    var chunks, houses := scene.generatedChunks, scene.houses;
    SpawnedNothingWhenVisited(StartChunk(scrollX), EndChunk(scrollX, camWidth), chunks, scene.RoadTop());
    scene.SpawnHouses(scrollX, camWidth);
    assert scene.generatedChunks == chunks && scene.houses == houses;
  }
}
