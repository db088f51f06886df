/** Live preview buffers (application/live_monitor.py): a bounded ring of frames for each of the
    most recently fed cameras. The reference is the log of everything ever received. */
module LiveMonitor {
  import opened Options

  datatype Packet = Packet(camera: string, image: string)

  datatype Frame = Frame(sequence: nat, packet: Packet)

  // ----- least recently fed, by the log alone

  function Without(ids: seq<string>, id: string): (rest: seq<string>)
    ensures forall x :: x in rest <==> x in ids && x != id
    ensures |rest| <= |ids|
  {
    if ids == [] then []
    else if ids[0] == id then Without(ids[1..], id)
    else [ids[0]] + Without(ids[1..], id)
  }

  /** The cameras of a log by their latest feed, the least recent first. */
  function Recency(log: seq<Packet>): (order: seq<string>)
    ensures forall c :: c in order <==> exists k :: 0 <= k < |log| && log[k].camera == c
  {
    if log == [] then []
    else
      var last := log[|log| - 1].camera;
      Without(Recency(log[..|log| - 1]), last) + [last]
  }

  function LastOnes(ids: seq<string>, n: nat): (rest: seq<string>)
    ensures |rest| <= n
  {
    if |ids| <= n then ids else ids[|ids| - n..]
  }

  /** The cameras that still have a ring: the `cameras` most recently fed ones. */
  function Buffered(log: seq<Packet>, cameras: nat): seq<string> {
    LastOnes(Recency(log), cameras)
  }

  /** The sequence numbers kept for a camera: the latest `frames` since it last came in. */
  function Retained(log: seq<Packet>, camera: string, cameras: nat, frames: nat): seq<nat> {
    if log == [] then []
    else
      var before := log[..|log| - 1];
      if log[|log| - 1].camera == camera then
        var kept := if camera in Buffered(before, cameras) then Retained(before, camera, cameras, frames) else [];
        Trimmed(kept, frames) + [|log|]
      else if camera in Buffered(log, cameras) then Retained(before, camera, cameras, frames)
      else []
  }

  /** A ring makes room for one more. */
  function Trimmed<T>(ring: seq<T>, frames: nat): seq<T> {
    if |ring| >= frames && ring != [] then ring[1..] else ring
  }

  predicate Distinct(ids: seq<string>) {
    forall i, j :: 0 <= i < j < |ids| ==> ids[i] != ids[j]
  }

  lemma {:induction false} WithoutKeepsDistinct(ids: seq<string>, id: string)
    requires Distinct(ids)
    ensures Distinct(Without(ids, id))
    ensures id !in ids ==> Without(ids, id) == ids
    ensures |Without(ids, id)| == |ids| - (if id in ids then 1 else 0)
  {
    if ids != [] {
      WithoutKeepsDistinct(ids[1..], id);
      assert ids[0] !in ids[1..] && ids == [ids[0]] + ids[1..];
      var rest := Without(ids[1..], id);
      assert ids[0] !in rest;
    }
  }

  lemma {:induction false} RecencyIsDistinct(log: seq<Packet>)
    ensures Distinct(Recency(log))
  {
    if log != [] {
      RecencyIsDistinct(log[..|log| - 1]);
      WithoutKeepsDistinct(Recency(log[..|log| - 1]), log[|log| - 1].camera);
    }
  }

  lemma Associative(a: seq<string>, b: seq<string>, c: seq<string>)
    ensures a + (b + c) == (a + b) + c
  {
  }

  lemma {:induction false} WithoutSplits(a: seq<string>, b: seq<string>, id: string)
    ensures Without(a + b, id) == Without(a, id) + Without(b, id)
  {
    if a == [] {
      assert a + b == b;
    } else {
      WithoutSplits(a[1..], b, id);
      assert (a + b)[0] == a[0] && (a + b)[1..] == a[1..] + b;
      Associative([a[0]], Without(a[1..], id), Without(b, id));
    }
  }

  lemma LastOfSum(a: seq<string>, b: seq<string>, n: nat)
    requires |b| == n
    ensures LastOnes(a + b, n) == b
  {
  }

  lemma MoveBuffered(dropped: seq<string>, before: seq<string>, id: string, n: nat)
    requires Distinct(dropped + before) && |before| <= n && (dropped == [] || |before| == n) && id in before
    ensures LastOnes(Without(dropped + before, id) + [id], n) == Without(before, id) + [id]
  {
    WithoutSplits(dropped, before, id);
    DistinctParts(dropped, before);
    WithoutKeepsDistinct(dropped, id);
    WithoutKeepsDistinct(before, id);
    assert id !in dropped;
    assert (dropped + Without(before, id)) + [id] == dropped + (Without(before, id) + [id]);
    if dropped != [] { LastOfSum(dropped, Without(before, id) + [id], n); }
  }

  lemma BringIn(dropped: seq<string>, before: seq<string>, id: string, n: nat)
    requires Distinct(dropped + before) && |before| <= n && (dropped == [] || |before| == n) && id !in before && n >= 1
    ensures LastOnes(Without(dropped + before, id) + [id], n) == (if |before| >= n then before[1..] else before) + [id]
  {
    WithoutSplits(dropped, before, id);
    DistinctParts(dropped, before);
    WithoutKeepsDistinct(before, id);
    var rest := Without(dropped, id);
    if |before| >= n {
      FirstMoves(rest, before, id);
      LastOfSum(rest + [before[0]], before[1..] + [id], n);
    }
  }

  lemma FirstMoves(rest: seq<string>, before: seq<string>, id: string)
    requires before != []
    ensures (rest + before) + [id] == (rest + [before[0]]) + (before[1..] + [id])
  {
  }

  lemma DistinctParts(a: seq<string>, b: seq<string>)
    requires Distinct(a + b)
    ensures Distinct(a) && Distinct(b) && forall x :: x in a ==> x !in b
  {
    forall i, j | 0 <= i < j < |b| ensures b[i] != b[j] { assert (a + b)[|a| + i] != (a + b)[|a| + j]; }
    forall i, j | 0 <= i < j < |a| ensures a[i] != a[j] { assert (a + b)[i] != (a + b)[j]; }
    forall i, j | 0 <= i < |a| && 0 <= j < |b| ensures a[i] != b[j] { assert (a + b)[i] != (a + b)[|a| + j]; }
  }

  /** Feeding a buffered camera moves it to the end; a new one comes in at the end, and when
      the table is full the least recently fed camera goes. */
  lemma FeedingMovesToTheEnd(log: seq<Packet>, p: Packet, cameras: nat)
    requires cameras >= 1
    ensures Buffered(log + [p], cameras) == Fed(Buffered(log, cameras), p.camera, cameras)
  {
    var order, before := Recency(log), Buffered(log, cameras);
    assert (log + [p])[..|log|] == log;
    RecencyIsDistinct(log);
    var dropped := order[..|order| - |before|];
    assert order == dropped + before;
    if p.camera in before { MoveBuffered(dropped, before, p.camera, cameras); } else { BringIn(dropped, before, p.camera, cameras); }
  }

  /** The table's keys after feeding a camera. */
  function Fed(order: seq<string>, camera: string, cameras: nat): seq<string>
    requires cameras >= 1
  {
    (if camera in order then Without(order, camera) else if |order| >= cameras then order[1..] else order) + [camera]
  }

  // ----- who is kept, said without tables

  function Members(ids: seq<string>): set<string> {
    set id | id in ids
  }

  /** The cameras fed after the last feed of `camera`. */
  function FedSince(log: seq<Packet>, camera: string): set<string> {
    if log == [] || log[|log| - 1].camera == camera then {}
    else FedSince(log[..|log| - 1], camera) + {log[|log| - 1].camera}
  }

  lemma {:induction false} RecencySuffix(log: seq<Packet>, camera: string) returns (before: seq<string>, after: seq<string>)
    requires camera in Recency(log)
    ensures Recency(log) == before + [camera] + after && Members(after) == FedSince(log, camera)
  {
    var earlier, last := log[..|log| - 1], log[|log| - 1].camera;
    if last == camera {
      before, after := Without(Recency(earlier), last), [];
    } else {
      var a, b := RecencySuffix(earlier, camera);
      WithoutSplits(a + [camera], b, last);
      WithoutSplits(a, [camera], last);
      assert Without([camera], last) == [camera];
      before, after := Without(a, last), Without(b, last) + [last];
      assert Recency(log) == (before + [camera] + Without(b, last)) + [last];
      assert Members(after) == Members(b) + {last};
    }
  }

  lemma {:induction false} DistinctSize(ids: seq<string>)
    requires Distinct(ids)
    ensures |Members(ids)| == |ids|
  {
    if ids == [] {
      assert Members(ids) == {};
    } else {
      var rest := ids[..|ids| - 1];
      DistinctSize(rest);
      assert Members(ids) == Members(rest) + {ids[|ids| - 1]};
      assert ids[|ids| - 1] !in rest;
    }
  }

  lemma AmongTheLast(before: seq<string>, id: string, after: seq<string>, n: nat)
    requires Distinct(before + [id] + after)
    ensures id in LastOnes(before + [id] + after, n) <==> |after| < n
  {
    var order := before + [id] + after;
    DistinctParts(before + [id], after);
    assert order[|before|] == id && id !in after;
    var kept := LastOnes(order, n);
    if |after| < n {
      assert kept[|before| - (|order| - |kept|)] == id;
    } else {
      assert kept == after[|after| - n..];
    }
  }

  /** A camera has a ring exactly when it was fed and fewer than `cameras` others were fed since:
      the evicted camera is always the least recently fed one. */
  lemma BufferedIff(log: seq<Packet>, camera: string, cameras: nat)
    ensures camera in Buffered(log, cameras) <==> camera in Recency(log) && |FedSince(log, camera)| < cameras
  {
    if camera in Recency(log) {
      var before, after := RecencySuffix(log, camera);
      RecencyIsDistinct(log);
      DistinctParts(before + [camera], after);
      DistinctSize(after);
      AmongTheLast(before, camera, after, cameras);
    }
  }

  /** How often `camera` was fed after the first `n` packets. */
  function Later(log: seq<Packet>, n: nat, camera: string): nat {
    if |log| <= n then 0
    else Later(log[..|log| - 1], n, camera) + if log[|log| - 1].camera == camera then 1 else 0
  }

  predicate HasRing(log: seq<Packet>, p: nat, camera: string, cameras: nat)
    requires p <= |log|
  {
    camera in Buffered(log[..p], cameras)
  }

  /** The camera has kept its ring ever since the first `n` packets. */
  ghost predicate Stayed(log: seq<Packet>, n: nat, camera: string, cameras: nat) {
    forall p :: n <= p <= |log| ==> HasRing(log, p, camera, cameras)
  }

  lemma StayedStep(log: seq<Packet>, last: Packet, n: nat, camera: string, cameras: nat)
    requires n <= |log|
    ensures Stayed(log + [last], n, camera, cameras) <==> Stayed(log, n, camera, cameras) && camera in Buffered(log + [last], cameras)
  {
    var all := log + [last];
    assert all[..|all|] == all;
    forall p | 0 <= p <= |log| ensures HasRing(all, p, camera, cameras) == HasRing(log, p, camera, cameras) {
      assert all[..p] == log[..p];
    }
    assert HasRing(all, |all|, camera, cameras) <==> camera in Buffered(all, cameras);
  }

  lemma JustFed(log: seq<Packet>, cameras: nat)
    requires log != [] && cameras >= 1
    ensures log[|log| - 1].camera in Buffered(log, cameras)
  {
    var order := LastOnes(Recency(log), cameras);
    assert order[|order| - 1] == log[|log| - 1].camera;
  }

  /** A ring holds this camera's packets in order; the ones after each are all later packets of
      the camera. */
  ghost predicate InOrder(log: seq<Packet>, camera: string, ring: seq<nat>, frames: nat) {
    && |ring| <= frames
    && (forall i :: 0 <= i < |ring| ==> 1 <= ring[i] <= |log| && log[ring[i] - 1].camera == camera && Later(log, ring[i], camera) == |ring| - 1 - i)
    && (forall i, j :: 0 <= i < j < |ring| ==> ring[i] < ring[j])
  }

  lemma InOrderAfterOther(log: seq<Packet>, last: Packet, camera: string, ring: seq<nat>, frames: nat)
    requires InOrder(log, camera, ring, frames) && last.camera != camera
    ensures InOrder(log + [last], camera, ring, frames)
  {
    assert (log + [last])[..|log|] == log;
  }

  lemma FedEntry(log: seq<Packet>, last: Packet, camera: string, n: nat)
    requires 1 <= n <= |log| && last.camera == camera
    ensures Later(log + [last], n, camera) == Later(log, n, camera) + 1 && (log + [last])[n - 1] == log[n - 1]
  {
    assert (log + [last])[..|log|] == log;
  }

  lemma TrimmedEntry(ring: seq<nat>, frames: nat, i: nat)
    requires i < |Trimmed(ring, frames)|
    ensures var shift := |ring| - |Trimmed(ring, frames)|;
      0 <= shift <= 1 && i + shift < |ring| && Trimmed(ring, frames)[i] == ring[i + shift]
  {
  }

  lemma InOrderAfterFeed(log: seq<Packet>, last: Packet, camera: string, ring: seq<nat>, frames: nat)
    requires InOrder(log, camera, ring, frames) && last.camera == camera && frames >= 1
    ensures InOrder(log + [last], camera, Trimmed(ring, frames) + [|log| + 1], frames)
  {
    var all, kept := log + [last], Trimmed(ring, frames);
    var next := kept + [|log| + 1];
    var shift := |ring| - |kept|;
    forall i | 0 <= i < |next|
      ensures 1 <= next[i] <= |all| && all[next[i] - 1].camera == camera && Later(all, next[i], camera) == |next| - 1 - i
    {
      if i < |kept| {
        TrimmedEntry(ring, frames, i);
        FedEntry(log, last, camera, ring[i + shift]);
      }
    }
    forall i, j | 0 <= i < j < |next| ensures next[i] < next[j] {
      TrimmedEntry(ring, frames, i);
      if j < |kept| { TrimmedEntry(ring, frames, j); }
    }
  }

  lemma {:induction false} RetainedInOrder(log: seq<Packet>, camera: string, cameras: nat, frames: nat)
    requires frames >= 1
    ensures InOrder(log, camera, Retained(log, camera, cameras, frames), frames)
  {
    if log != [] {
      var before, last := log[..|log| - 1], log[|log| - 1];
      assert log == before + [last];
      RetainedInOrder(before, camera, cameras, frames);
      if last.camera == camera {
        var kept := if camera in Buffered(before, cameras) then Retained(before, camera, cameras, frames) else [];
        InOrderAfterFeed(before, last, camera, kept, frames);
      } else {
        InOrderAfterOther(before, last, camera, Retained(before, camera, cameras, frames), frames);
      }
    }
  }

  /** A sequence is kept exactly when it is a packet of the camera, fewer than `frames` later
      packets of the camera came in, and the camera has kept its ring ever since. */
  ghost predicate Kept(log: seq<Packet>, n: nat, camera: string, cameras: nat, frames: nat) {
    1 <= n <= |log| && log[n - 1].camera == camera && Later(log, n, camera) < frames && Stayed(log, n, camera, cameras)
  }

  lemma TrimmedIff(ring: seq<nat>, frames: nat, log: seq<Packet>, camera: string, n: nat)
    requires InOrder(log, camera, ring, frames) && frames >= 1 && n in ring
    ensures n in Trimmed(ring, frames) <==> Later(log, n, camera) + 1 < frames
  {
    var i :| 0 <= i < |ring| && ring[i] == n;
    if |ring| >= frames {
      if i > 0 { assert ring[1..][i - 1] == n; }
      else { forall j | 0 <= j < |ring[1..]| ensures ring[1..][j] != n { assert ring[0] < ring[j + 1]; } }
    }
  }

  lemma {:induction false} RetainedIff(log: seq<Packet>, n: nat, camera: string, cameras: nat, frames: nat)
    requires cameras >= 1 && frames >= 1
    ensures n in Retained(log, camera, cameras, frames) <==> Kept(log, n, camera, cameras, frames)
  {
    if log != [] {
      var before, last := log[..|log| - 1], log[|log| - 1];
      assert log == before + [last];
      JustFed(log, cameras);
      RetainedInOrder(before, camera, cameras, frames);
      RetainedInOrder(log, camera, cameras, frames);
      if n <= |before| {
        RetainedIff(before, n, camera, cameras, frames);
        StayedStep(before, last, n, camera, cameras);
        if last.camera == camera { KeptOn(before, n, camera, cameras, frames); }
      } else if n == |log| {
        StayedNow(log, camera, cameras);
      }
    }
  }

  lemma StayedNow(log: seq<Packet>, camera: string, cameras: nat)
    ensures Stayed(log, |log|, camera, cameras) <==> camera in Buffered(log, cameras)
  {
    assert log[..|log|] == log;
    assert HasRing(log, |log|, camera, cameras) <==> camera in Buffered(log, cameras);
  }

  lemma KeptOn(log: seq<Packet>, n: nat, camera: string, cameras: nat, frames: nat)
    requires frames >= 1 && n <= |log|
    requires n in Retained(log, camera, cameras, frames) <==> Kept(log, n, camera, cameras, frames)
    ensures var ring := if camera in Buffered(log, cameras) then Retained(log, camera, cameras, frames) else [];
      n in Trimmed(ring, frames) <==> Kept(log, n, camera, cameras, frames) && Later(log, n, camera) + 1 < frames
  {
    RetainedInOrder(log, camera, cameras, frames);
    if Stayed(log, n, camera, cameras) {
      assert HasRing(log, |log|, camera, cameras) && log[..|log|] == log;
    }
    if n in Retained(log, camera, cameras, frames) {
      TrimmedIff(Retained(log, camera, cameras, frames), frames, log, camera, n);
    }
  }

  // ----- the object

  function Numbers(ring: seq<Frame>): (numbers: seq<nat>)
    ensures |numbers| == |ring| && forall i :: 0 <= i < |ring| ==> numbers[i] == ring[i].sequence
  {
    seq(|ring|, i requires 0 <= i < |ring| => ring[i].sequence)
  }

  function Total(order: seq<string>, rings: map<string, seq<Frame>>): nat {
    if order == [] then 0
    else (if order[0] in rings then |rings[order[0]]| else 0) + Total(order[1..], rings)
  }

  lemma {:induction false} TotalDependsOnMembers(order: seq<string>, rings: map<string, seq<Frame>>, next: map<string, seq<Frame>>)
    requires forall c :: c in order ==> c in rings && c in next && next[c] == rings[c]
    ensures Total(order, next) == Total(order, rings)
  {
    if order != [] { TotalDependsOnMembers(order[1..], rings, next); }
  }

  lemma {:induction false} TotalWithout(order: seq<string>, rings: map<string, seq<Frame>>, camera: string)
    requires Distinct(order) && camera in order && camera in rings
    ensures Total(Without(order, camera), rings) == Total(order, rings) - |rings[camera]|
  {
    assert order == [order[0]] + order[1..];
    WithoutKeepsDistinct(order[1..], camera);
    if order[0] != camera { TotalWithout(order[1..], rings, camera); }
  }

  lemma {:induction false} TotalAppend(order: seq<string>, rings: map<string, seq<Frame>>, camera: string)
    requires camera in rings
    ensures Total(order + [camera], rings) == Total(order, rings) + |rings[camera]|
  {
    if order == [] {
      assert [] + [camera] == [camera] && [camera][1..] == [];
    } else {
      TotalAppend(order[1..], rings, camera);
      assert (order + [camera])[1..] == order[1..] + [camera];
    }
  }

  /** A ring holds exactly the kept sequences, each with the packet it was received with. */
  ghost predicate RingOk(ring: seq<Frame>, camera: string, log: seq<Packet>, cameras: nat, frames: nat) {
    Numbers(ring) == Retained(log, camera, cameras, frames) && Carries(ring, log)
  }

  ghost predicate TableOk(order: seq<string>, rings: map<string, seq<Frame>>, log: seq<Packet>, cameras: nat, frames: nat) {
    && order == Buffered(log, cameras) && rings.Keys == Members(order)
    && forall c :: c in rings ==> RingOk(rings[c], c, log, cameras, frames)
  }

  /** The rings without the one of an evicted camera. */
  function WithRoom(order: seq<string>, rings: map<string, seq<Frame>>, camera: string, cameras: nat): map<string, seq<Frame>>
    requires cameras >= 1
  {
    if camera !in order && |order| >= cameras then rings - {order[0]} else rings
  }

  function RingOf(rings: map<string, seq<Frame>>, camera: string): seq<Frame> {
    if camera in rings then rings[camera] else []
  }

  lemma BufferedIsDistinct(log: seq<Packet>, cameras: nat)
    ensures Distinct(Buffered(log, cameras))
  {
    RecencyIsDistinct(log);
  }

  lemma FeedKeepsKeys(order: seq<string>, rings: map<string, seq<Frame>>, camera: string, ring: seq<Frame>, cameras: nat)
    requires cameras >= 1 && Distinct(order) && rings.Keys == Members(order)
    ensures WithRoom(order, rings, camera, cameras)[camera := ring].Keys == Members(Fed(order, camera, cameras))
  {
    var next := Fed(order, camera, cameras);
    if camera !in order && |order| >= cameras {
      assert order == [order[0]] + order[1..];
      forall c ensures c in next <==> c in rings.Keys - {order[0]} + {camera} {
        if c in order && c != order[0] { assert c in order[1..]; }
        if c in order[1..] {
          var k :| 0 <= k < |order[1..]| && order[1..][k] == c;
          assert order[k + 1] != order[0];
        }
      }
    }
  }

  lemma NumbersAppend(ring: seq<Frame>, frames: nat, frame: Frame)
    ensures Numbers(Trimmed(ring, frames) + [frame]) == Trimmed(Numbers(ring), frames) + [frame.sequence]
  {
  }

  /** Every frame carries the packet of its sequence. */
  ghost predicate Carries(ring: seq<Frame>, log: seq<Packet>) {
    forall i :: 0 <= i < |ring| ==> 1 <= ring[i].sequence <= |log| && ring[i].packet == log[ring[i].sequence - 1]
  }

  lemma CarriesOn(ring: seq<Frame>, log: seq<Packet>, packet: Packet, frames: nat)
    requires Carries(ring, log)
    ensures Carries(Trimmed(ring, frames) + [Frame(|log| + 1, packet)], log + [packet])
  {
    var kept := Trimmed(ring, frames);
    forall i | 0 <= i < |kept| ensures kept[i] in ring { assert kept[i] == ring[i + |ring| - |kept|]; }
  }

  lemma OwnRing(ring: seq<Frame>, camera: string, log: seq<Packet>, image: string, cameras: nat, frames: nat)
    requires if camera in Buffered(log, cameras) then RingOk(ring, camera, log, cameras, frames) else ring == []
    requires cameras >= 1 && frames >= 1
    ensures RingOk(Trimmed(ring, frames) + [Frame(|log| + 1, Packet(camera, image))], camera, log + [Packet(camera, image)], cameras, frames)
  {
    assert (log + [Packet(camera, image)])[..|log|] == log;
    assert Numbers(ring) == if camera in Buffered(log, cameras) then Retained(log, camera, cameras, frames) else [];
    NumbersAppend(ring, frames, Frame(|log| + 1, Packet(camera, image)));
    CarriesOn(ring, log, Packet(camera, image), frames);
  }

  lemma OtherRing(ring: seq<Frame>, camera: string, log: seq<Packet>, packet: Packet, cameras: nat, frames: nat)
    requires RingOk(ring, camera, log, cameras, frames) && packet.camera != camera && camera in Buffered(log + [packet], cameras)
    ensures RingOk(ring, camera, log + [packet], cameras, frames)
  {
    assert (log + [packet])[..|log|] == log;
  }

  /** The table after a packet is the reference's table after the longer log. */
  lemma FeedKeepsTable(order: seq<string>, rings: map<string, seq<Frame>>, log: seq<Packet>, packet: Packet, cameras: nat, frames: nat)
    requires cameras >= 1 && frames >= 1 && TableOk(order, rings, log, cameras, frames)
    ensures var ring := Trimmed(RingOf(rings, packet.camera), frames) + [Frame(|log| + 1, packet)];
      TableOk(Fed(order, packet.camera, cameras), WithRoom(order, rings, packet.camera, cameras)[packet.camera := ring], log + [packet], cameras, frames)
  {
    var camera := packet.camera;
    var ring := Trimmed(RingOf(rings, camera), frames) + [Frame(|log| + 1, packet)];
    var next := WithRoom(order, rings, camera, cameras)[camera := ring];
    FeedingMovesToTheEnd(log, packet, cameras);
    BufferedIsDistinct(log, cameras);
    FeedKeepsKeys(order, rings, camera, ring, cameras);
    OwnRing(RingOf(rings, camera), camera, log, packet.image, cameras, frames);
    forall c | c in next ensures RingOk(next[c], c, log + [packet], cameras, frames) {
      if c != camera {
        assert c in Members(Fed(order, camera, cameras));
        OtherRing(rings[c], c, log, packet, cameras, frames);
      }
    }
  }

  /** Frames are conserved: a packet adds one and what is evicted goes. */
  lemma FeedConserves(order: seq<string>, rings: map<string, seq<Frame>>, camera: string, frame: Frame, cameras: nat, frames: nat)
    requires cameras >= 1 && frames >= 1 && Distinct(order) && rings.Keys == Members(order)
    ensures var ring := RingOf(rings, camera);
      var gone := (if camera !in order && |order| >= cameras then |rings[order[0]]| else 0) + |ring| - |Trimmed(ring, frames)|;
      Total(Fed(order, camera, cameras), WithRoom(order, rings, camera, cameras)[camera := Trimmed(ring, frames) + [frame]]) + gone == Total(order, rings) + 1
  {
    var ring := RingOf(rings, camera);
    var last := Trimmed(ring, frames) + [frame];
    var next := WithRoom(order, rings, camera, cameras)[camera := last];
    var stay := if camera in order then Without(order, camera) else if |order| >= cameras then order[1..] else order;
    if camera in order { TotalWithout(order, rings, camera); }
    forall c | c in stay ensures c in rings && c in next && next[c] == rings[c] {
      assert c in order && c != camera;
      if camera !in order && |order| >= cameras {
        var k :| 0 <= k < |order[1..]| && order[1..][k] == c;
        assert order[k + 1] != order[0];
      }
    }
    TotalDependsOnMembers(stay, rings, next);
    TotalAppend(stay, next, camera);
  }

  /** Table and counters together, for a ring that is never longer than its bound. */
  ghost predicate AllOk(order: seq<string>, rings: map<string, seq<Frame>>, log: seq<Packet>, evicted: nat, cameras: nat, frames: nat) {
    TableOk(order, rings, log, cameras, frames) && |log| == evicted + Total(order, rings)
  }

  lemma FeedKeepsAll(order: seq<string>, rings: map<string, seq<Frame>>, log: seq<Packet>, packet: Packet, evicted: nat, cameras: nat, frames: nat)
    requires cameras >= 1 && frames >= 1 && AllOk(order, rings, log, evicted, cameras, frames)
    ensures var ring := RingOf(rings, packet.camera);
      && |ring| <= frames && Members(order) == rings.Keys
      && AllOk(Fed(order, packet.camera, cameras),
               WithRoom(order, rings, packet.camera, cameras)[packet.camera := Trimmed(ring, frames) + [Frame(|log| + 1, packet)]],
               log + [packet],
               evicted + (if packet.camera !in order && |order| >= cameras then |rings[order[0]]| else 0) + (if |ring| == frames then 1 else 0),
               cameras, frames)
  {
    BufferedIsDistinct(log, cameras);
    FeedKeepsTable(order, rings, log, packet, cameras, frames);
    FeedConserves(order, rings, packet.camera, Frame(|log| + 1, packet), cameras, frames);
    RetainedInOrder(log, packet.camera, cameras, frames);
    if packet.camera in rings { assert RingOk(rings[packet.camera], packet.camera, log, cameras, frames); }
  }

  method Find(ring: seq<Frame>, number: nat) returns (found: Option<Frame>)
    ensures found.Some? <==> number in Numbers(ring)
    ensures found.Some? ==> found.value in ring && found.value.sequence == number
  {
    for k := 0 to |ring|
      invariant forall i :: 0 <= i < k ==> ring[i].sequence != number
    {
      if ring[k].sequence == number {
        assert number == Numbers(ring)[k];
        return Some(ring[k]);
      }
    }
    found := None;
  }

  lemma NumberedIff(numbers: seq<nat>, camera: string, log: seq<Packet>, number: nat, cameras: nat, frames: nat)
    requires cameras >= 1 && frames >= 1 && numbers == Retained(log, camera, cameras, frames)
    ensures number in numbers <==> Kept(log, number, camera, cameras, frames)
  {
    RetainedIff(log, number, camera, cameras, frames);
  }

  lemma CarriedFrame(ring: seq<Frame>, log: seq<Packet>, f: Frame)
    requires Carries(ring, log) && f in ring
    ensures 1 <= f.sequence <= |log| && f == Frame(f.sequence, log[f.sequence - 1])
  {
  }

  lemma NoRing(log: seq<Packet>, camera: string, n: nat, cameras: nat, frames: nat)
    requires camera !in Buffered(log, cameras)
    ensures !Kept(log, n, camera, cameras, frames)
  {
    assert log[..|log|] == log;
    assert !HasRing(log, |log|, camera, cameras);
  }

  class LiveMonitorService {
    const maximumCameras: nat
    const bufferSize: nat
    var order: seq<string>
    var rings: map<string, seq<Frame>>
    var sequence: nat
    var received: nat
    var evicted: nat
    ghost var log: seq<Packet>

    ghost predicate Valid()
      reads this
    {
      && maximumCameras >= 1 && bufferSize >= 1
      && AllOk(order, rings, log, evicted, maximumCameras, bufferSize)
      && sequence == received == |log|
    }

    constructor (maximumCameras: nat, bufferSize: nat)
      requires maximumCameras >= 1 && bufferSize >= 1
      ensures Valid() && log == [] && this.maximumCameras == maximumCameras && this.bufferSize == bufferSize
    {
      this.maximumCameras, this.bufferSize := maximumCameras, bufferSize;
      order, rings, sequence, received, evicted, log := [], map[], 0, 0, 0, [];
    }

    /** `frame`: finds a sequence exactly when it is still kept. */
    method FrameOf(camera: string, number: nat) returns (found: Option<Frame>)
      requires Valid()
      ensures found.Some? <==> Kept(log, number, camera, maximumCameras, bufferSize)
      ensures found.Some? ==> found.value == Frame(number, log[number - 1])
    {
      if camera !in rings {
        NoRing(log, camera, number, maximumCameras, bufferSize);
        return None;
      }
      assert RingOk(rings[camera], camera, log, maximumCameras, bufferSize);
      found := Find(rings[camera], number);
      NumberedIff(Numbers(rings[camera]), camera, log, number, maximumCameras, bufferSize);
      if found.Some? { CarriedFrame(rings[camera], log, found.value); }
    }

    /** Moves a camera with a ring to the end, or brings a new one in, evicting when full. */
    method MakeRoom(camera: string) returns (ring: seq<Frame>)
      requires maximumCameras >= 1 && Members(order) == rings.Keys
      modifies this`order, this`rings, this`evicted
      ensures order == Fed(old(order), camera, maximumCameras)
      ensures rings == WithRoom(old(order), old(rings), camera, maximumCameras) && ring == RingOf(old(rings), camera)
      ensures evicted == old(evicted) + if camera !in old(order) && |old(order)| >= maximumCameras then |old(rings)[old(order)[0]]| else 0
    {
      ring := RingOf(rings, camera);
      if camera in rings {
        order := Without(order, camera);
      } else if |order| >= maximumCameras {
        evicted := evicted + |rings[order[0]]|;
        rings := rings - {order[0]};
        order := order[1..];
      }
      order := order + [camera];
    }

    /** Appends the frame to its ring. */
    method Append(packet: Packet) returns (frame: Frame)
      requires maximumCameras >= 1 && Members(order) == rings.Keys
      modifies this
      ensures order == Fed(old(order), packet.camera, maximumCameras) && frame == Frame(old(sequence) + 1, packet)
      ensures rings == WithRoom(old(order), old(rings), packet.camera, maximumCameras)[packet.camera := Trimmed(RingOf(old(rings), packet.camera), bufferSize) + [frame]]
      ensures evicted == old(evicted)
        + (if packet.camera !in old(order) && |old(order)| >= maximumCameras then |old(rings)[old(order)[0]]| else 0)
        + (if |RingOf(old(rings), packet.camera)| == bufferSize then 1 else 0)
      ensures sequence == old(sequence) + 1 && received == old(received) + 1 && log == old(log) + [packet]
    {
      var ring := MakeRoom(packet.camera);
      if |ring| == bufferSize { evicted := evicted + 1; }
      sequence := sequence + 1;
      frame := Frame(sequence, packet);
      rings := rings[packet.camera := Trimmed(ring, bufferSize) + [frame]];
      received := received + 1;
      log := log + [packet];
    }

    /** `ingest`: the packet gets the next sequence; the oldest frame of a full ring goes, and
        with a new camera in a full table the least recently fed camera goes. */
    method Ingest(packet: Packet) returns (frame: Frame)
      requires Valid()
      modifies this
      ensures Valid() && log == old(log) + [packet] && frame == Frame(|log|, packet)
      ensures received == old(received) + 1
    {
      FeedKeepsAll(order, rings, log, packet, evicted, maximumCameras, bufferSize);
      frame := Append(packet);
    }
  }
}
