/**
 * The state reshaping of the two-finger gripper environment
 * (GripperEnvironment.find_joint_coordinates and define_state_space).
 *
 * A marker-pose table maps marker ids to poses. find_joint_coordinates walks the
 * table as many times as it has entries and looks each entry up by its position
 * 0, 1, 2, ..., not by its key, so the lookups succeed only when the keys are
 * exactly 0..n-1.
 */
module GripperState {
  import opened Wrappers

  /**
   * A detected marker's pose: the rows of its translation (the first row is the
   * position vector, last component the depth) and its orientation angles.
   */
  datatype MarkerPose = MarkerPose(translation: seq<seq<real>>, orientation: seq<real>)

  /** The lookup that fails: a missing key, or a pose with no translation row. */
  datatype PoseError = MissingMarker(index: int) | EmptyTranslation(index: int)

  /** A vector without its last component; an empty vector stays empty. */
  function DropLast(v: seq<real>): (r: seq<real>)
    ensures |v| == 0 ==> r == []
    ensures |v| > 0 ==> r + [v[|v| - 1]] == v
  {
    if |v| == 0 then [] else v[..|v| - 1]
  }

  /** Entry i of the table can be looked up and has a position row. */
  predicate Readable(poses: map<int, MarkerPose>, i: int)
  {
    i in poses && |poses[i].translation| > 0
  }

  /** Every position 0..n-1 of an n-entry table can be read. */
  predicate IndexedByPosition(poses: map<int, MarkerPose>)
  {
    forall i :: 0 <= i < |poses| ==> Readable(poses, i)
  }

  /** The coordinates recorded for the marker at position i. */
  function JointCoordinate(poses: map<int, MarkerPose>, i: int): seq<real>
    requires Readable(poses, i)
  {
    DropLast(poses[i].translation[0])
  }

  /** The failure raised when position i cannot be read. */
  function ErrorAt(poses: map<int, MarkerPose>, i: int): PoseError
  {
    if i !in poses then MissingMarker(i) else EmptyTranslation(i)
  }

  /** The ids 0..n-1. */
  function Indices(n: nat): (s: set<int>)
    ensures forall i :: i in s <==> 0 <= i < n
  {
    if n == 0 then {} else Indices(n - 1) + {n - 1}
  }

  /**
   * find_joint_coordinates: one coordinate vector per table entry, in position
   * order, each the first translation row without its last component. It fails
   * at the first position that is not a key of the table, or whose pose has no
   * translation row.
   */
  method FindJointCoordinates(poses: map<int, MarkerPose>) returns (r: Result<seq<seq<real>>, PoseError>)
    ensures r.Success? <==> IndexedByPosition(poses)
    ensures r.Success? ==> (IndexedByPosition(poses) && |r.value| == |poses|
            && forall i :: 0 <= i < |poses| ==> r.value[i] == JointCoordinate(poses, i))
    ensures r.Failure? ==> var k := r.error.index;
            && 0 <= k < |poses| && !Readable(poses, k) && r.error == ErrorAt(poses, k)
            && forall i :: 0 <= i < k ==> Readable(poses, i)
  {
    var coordinates: seq<seq<real>> := [];
    var n := |poses|;
    var i := 0;
    while i < n
      invariant 0 <= i <= n
      invariant |coordinates| == i
      invariant forall j :: 0 <= j < i ==> Readable(poses, j) && coordinates[j] == JointCoordinate(poses, j)
    {
      if i !in poses {
        assert !Readable(poses, i);
        return Failure(MissingMarker(i));
      }
      var pose := poses[i];
      if |pose.translation| == 0 {
        assert !Readable(poses, i);
        return Failure(EmptyTranslation(i));
      }
      coordinates := coordinates + [DropLast(pose.translation[0])];
      i := i + 1;
    }
    return Success(coordinates);
  }

  lemma {:induction false} IndicesSize(n: nat)
    ensures |Indices(n)| == n
  {
    if n > 0 {
      IndicesSize(n - 1);
      assert Indices(n) == Indices(n - 1) + {n - 1};
    }
  }

  /** A subset as large as its superset is the superset. */
  lemma SubsetOfSameSize(a: set<int>, b: set<int>)
    requires a <= b && |a| == |b|
    ensures a == b
  {
    assert b == a + (b - a);
  }

  /**
   * The table can be walked by position exactly when its keys are 0..n-1 and
   * every pose has a translation row.
   */
  lemma IndexedByPositionKeys(poses: map<int, MarkerPose>)
    ensures IndexedByPosition(poses)
            <==> poses.Keys == Indices(|poses|) && forall k :: k in poses ==> |poses[k].translation| > 0
  {
    var n := |poses|;
    if IndexedByPosition(poses) {
      IndicesSize(n);
      assert Indices(n) <= poses.Keys by {
        forall i | i in Indices(n) ensures i in poses {
          assert Readable(poses, i);
        }
      }
      SubsetOfSameSize(Indices(n), poses.Keys);
      forall k | k in poses ensures |poses[k].translation| > 0 {
        assert k in Indices(n) && Readable(poses, k);
      }
    } else {
      var i :| 0 <= i < n && !Readable(poses, i);
      assert i in Indices(n);
    }
  }

  /**
   * The seven gripper markers 0..6 plus one stray marker 9 in view: every
   * expected marker is present, yet the walk fails at position 7.
   */
  lemma StrayMarkerBreaksWalk(poses: map<int, MarkerPose>)
    requires poses.Keys == {0, 1, 2, 3, 4, 5, 6, 9}
    ensures !IndexedByPosition(poses)
  {
    assert poses.Keys == Indices(7) + {9};
    IndicesSize(7);
    assert |poses| == 8;
    assert !Readable(poses, 7);
  }

  /** The number of values in a list of coordinate lists. */
  function TotalLength(xss: seq<seq<real>>): nat
  {
    if xss == [] then 0 else |xss[0]| + TotalLength(xss[1..])
  }

  /** The flattening comprehension: every coordinate list in order, concatenated. */
  function Flatten(xss: seq<seq<real>>): (r: seq<real>)
    ensures |r| == TotalLength(xss)
  {
    if xss == [] then [] else xss[0] + Flatten(xss[1..])
  }

  /**
   * Element j of list i sits in the flattened list right after all the
   * elements of the lists before it.
   */
  lemma {:induction false} FlattenAt(xss: seq<seq<real>>, i: int, j: int)
    requires 0 <= i < |xss| && 0 <= j < |xss[i]|
    ensures TotalLength(xss[..i]) + j < |Flatten(xss)|
    ensures Flatten(xss)[TotalLength(xss[..i]) + j] == xss[i][j]
  {
    if i == 0 {
      assert xss[..0] == [];
    } else {
      FlattenAt(xss[1..], i - 1, j);
      assert xss[..i][1..] == xss[1..][..i - 1];
      assert xss[..i][0] == xss[0];
    }
  }

  /** The state-vector layout define_state_space is fixed to. */
  const StateMode: int := 3

  /**
   * The state vector of each layout: 1 is the servo positions then the yaw,
   * 2 the flattened coordinates, the yaw, then the servo positions, 3 the
   * flattened coordinates then the yaw; any other mode gives an empty vector.
   */
  function StateVector(mode: int, servos: seq<real>, coordinates: seq<seq<real>>, yaw: real): seq<real>
  {
    if mode == 1 then servos + [yaw]
    else if mode == 2 then Flatten(coordinates) + [yaw] + servos
    else if mode == 3 then Flatten(coordinates) + [yaw]
    else []
  }

  /** define_state_space, with the layout as a parameter. */
  method DefineStateSpace(mode: int, servos: seq<real>, coordinates: seq<seq<real>>, yaw: real) returns (v: seq<real>)
    ensures v == StateVector(mode, servos, coordinates, yaw)
  {
    v := [];
    if mode == 1 {
      v := servos + [yaw];
    } else if mode == 2 {
      var coordinateVector := Flatten(coordinates) + [yaw];
      var k := 0;
      while k < |servos|
        invariant 0 <= k <= |servos|
        invariant coordinateVector == Flatten(coordinates) + [yaw] + servos[..k]
      {
        coordinateVector := coordinateVector + [servos[k]];
        k := k + 1;
      }
      assert servos[..k] == servos;
      v := coordinateVector;
    } else if mode == 3 {
      v := Flatten(coordinates) + [yaw];
    }
  }

  /**
   * In the layout the environment uses, the state vector holds every
   * coordinate in order followed by the yaw: one more value than the
   * coordinates, the yaw last, and nothing of the servo positions.
   */
  lemma StateVectorLayout(servos: seq<real>, coordinates: seq<seq<real>>, yaw: real)
    ensures var v := StateVector(StateMode, servos, coordinates, yaw);
            && |v| == TotalLength(coordinates) + 1
            && v[|v| - 1] == yaw
            && v[..|v| - 1] == Flatten(coordinates)
            && forall other: seq<real> :: StateVector(StateMode, other, coordinates, yaw) == v
  {
  }

  /** In that layout, value j of coordinate list i sits at its flattened position. */
  lemma StateVectorAt(servos: seq<real>, coordinates: seq<seq<real>>, yaw: real, i: int, j: int)
    requires 0 <= i < |coordinates| && 0 <= j < |coordinates[i]|
    ensures var v := StateVector(StateMode, servos, coordinates, yaw);
            && TotalLength(coordinates[..i]) + j < TotalLength(coordinates)
            && v[TotalLength(coordinates[..i]) + j] == coordinates[i][j]
  {
    FlattenAt(coordinates, i, j);
  }
}
