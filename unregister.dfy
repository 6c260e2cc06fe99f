/**
 * The unregister path: from the zone's record-set listing, keep the sets whose `ResourceRecords`
 * field is present and that name the instance's canonical name, by their own name or by one of
 * their values, and delete each of them as it is.
 */
module UnregisterPlanner {
  import opened Wrappers
  import opened Records

  /** `byName(name)`: the set's own name is `name`. */
  function ByName(name: string): RecordSet -> bool {
    (s: RecordSet) => s.name == name
  }

  /** `byValue(value)`: some record of the set has the value `value`. */
  function ByValue(value: string): RecordSet -> bool {
    (s: RecordSet) => s.resourceRecords.Some? && value in s.resourceRecords.value
  }

  /** `anyOf(...predicates)`: tries the predicates in turn and holds as soon as one does. */
  function AnyOf<T>(predicates: seq<T -> bool>, x: T): (r: bool)
    ensures r <==> exists i :: 0 <= i < |predicates| && predicates[i](x)
    decreases |predicates|
  {
    if predicates == [] then false
    else if predicates[0](x) then true
    else
      assert forall i :: 1 <= i < |predicates| ==> predicates[i] == predicates[1..][i - 1];
      AnyOf(predicates[1..], x)
  }

  /** `set => set.ResourceRecords`: the field is present; an empty array is truthy and passes. */
  predicate HasRecords(s: RecordSet) {
    s.resourceRecords.Some?
  }

  /** `Array.prototype.filter`. */
  function Filter<T>(xs: seq<T>, keep: T -> bool): seq<T>
    decreases |xs|
  {
    if xs == [] then []
    else (if keep(xs[0]) then [xs[0]] else []) + Filter(xs[1..], keep)
  }

  /** The DELETE changes for the given sets, each carrying its set unchanged. */
  function Deletes(sets: seq<RecordSet>): seq<Change> {
    seq(|sets|, i requires 0 <= i < |sets| => Change(Delete, sets[i]))
  }

  /** Whether unregister keeps a listed set: records present, and name or a value is `fqdn`. */
  predicate Doomed(fqdn: string, s: RecordSet) {
    HasRecords(s) && (s.name == fqdn || fqdn in s.resourceRecords.value)
  }

  /** unregister, with the listing (`data.ResourceRecordSets`, absent read as `[]`) as an input. */
  function Unregister(instanceId: string, zoneName: string, listing: Option<seq<RecordSet>>): seq<Change> {
    var fqdn := CanonicalName(instanceId, zoneName);
    var sets := listing.GetOr([]);
    var withRecords := Filter(sets, HasRecords);
    Deletes(Filter(withRecords, s => AnyOf([ByName(fqdn), ByValue(fqdn)], s)))
  }

  /** The combined predicate holds exactly when the name or a value equals the fqdn. */
  lemma AnyOfNameOrValue(fqdn: string, s: RecordSet)
    ensures AnyOf([ByName(fqdn), ByValue(fqdn)], s) <==>
      s.name == fqdn || (s.resourceRecords.Some? && fqdn in s.resourceRecords.value)
  {
    var predicates := [ByName(fqdn), ByValue(fqdn)];
    assert predicates[0](s) == (s.name == fqdn);
  }

  lemma {:induction false} FilterConcat<T>(xs: seq<T>, ys: seq<T>, keep: T -> bool)
    ensures Filter(xs + ys, keep) == Filter(xs, keep) + Filter(ys, keep)
    decreases |xs|
  {
    if xs != [] {
      assert (xs + ys)[0] == xs[0];
      assert (xs + ys)[1..] == xs[1..] + ys;
      FilterConcat(xs[1..], ys, keep);
    } else {
      assert xs + ys == ys;
    }
  }

  lemma {:induction false} FilterMembers<T>(xs: seq<T>, keep: T -> bool, x: T)
    ensures x in Filter(xs, keep) <==> x in xs && keep(x)
    decreases |xs|
  {
    if xs != [] {
      FilterMembers(xs[1..], keep, x);
      assert xs == [xs[0]] + xs[1..];
    }
  }

  /** Filtering twice is filtering once by both conditions. */
  lemma {:induction false} FilterFilter<T>(xs: seq<T>, first: T -> bool, second: T -> bool, both: T -> bool)
    requires forall x :: both(x) == (first(x) && second(x))
    ensures Filter(Filter(xs, first), second) == Filter(xs, both)
    decreases |xs|
  {
    if xs != [] {
      FilterFilter(xs[1..], first, second, both);
      if first(xs[0]) {
        var once := Filter(xs, first);
        assert once == [xs[0]] + Filter(xs[1..], first);
        assert once[0] == xs[0] && once[1..] == Filter(xs[1..], first);
        assert Filter(once, second) == (if second(xs[0]) then [xs[0]] else []) + Filter(Filter(xs[1..], first), second);
        assert both(xs[0]) == second(xs[0]);
      } else {
        assert !both(xs[0]);
        assert Filter(xs, first) == [] + Filter(xs[1..], first);
        assert [] + Filter(xs[1..], first) == Filter(xs[1..], first);
      }
    }
  }

  /** unregister is the DELETE of the listed sets it dooms, in listing order. */
  lemma UnregisterIsFilter(instanceId: string, zoneName: string, sets: seq<RecordSet>)
    ensures Unregister(instanceId, zoneName, Some(sets)) ==
      Deletes(Filter(sets, s => Doomed(CanonicalName(instanceId, zoneName), s)))
  {
    var fqdn := CanonicalName(instanceId, zoneName);
    forall s ensures Doomed(fqdn, s) == (HasRecords(s) && AnyOf([ByName(fqdn), ByValue(fqdn)], s)) {
      AnyOfNameOrValue(fqdn, s);
    }
    FilterFilter(sets, HasRecords, s => AnyOf([ByName(fqdn), ByValue(fqdn)], s), s => Doomed(fqdn, s));
  }

  /** A single listed set is deleted, unchanged and without a TTL added, exactly when it is doomed. */
  lemma UnregisterOne(instanceId: string, zoneName: string, s: RecordSet)
    ensures Unregister(instanceId, zoneName, Some([s])) ==
      if Doomed(CanonicalName(instanceId, zoneName), s) then [Change(Delete, s)] else []
  {
    UnregisterIsFilter(instanceId, zoneName, [s]);
  }

  /** Order is kept: the changes for a listing are the changes for its first part, then those for
      the rest. With UnregisterOne this pins down the whole result. */
  lemma UnregisterConcat(instanceId: string, zoneName: string, xs: seq<RecordSet>, ys: seq<RecordSet>)
    ensures Unregister(instanceId, zoneName, Some(xs + ys)) ==
      Unregister(instanceId, zoneName, Some(xs)) + Unregister(instanceId, zoneName, Some(ys))
  {
    var doomed := (s: RecordSet) => Doomed(CanonicalName(instanceId, zoneName), s);
    UnregisterIsFilter(instanceId, zoneName, xs + ys);
    UnregisterIsFilter(instanceId, zoneName, xs);
    UnregisterIsFilter(instanceId, zoneName, ys);
    FilterConcat(xs, ys, doomed);
  }

  /** A change is planned exactly when it deletes a listed set that is doomed; an absent listing
      plans nothing. */
  lemma UnregisterMembers(instanceId: string, zoneName: string, listing: Option<seq<RecordSet>>, c: Change)
    ensures c in Unregister(instanceId, zoneName, listing) <==>
      listing.Some? && c.action == Delete && c.recordSet in listing.value &&
      Doomed(CanonicalName(instanceId, zoneName), c.recordSet)
  {
    var sets := listing.GetOr([]);
    var fqdn := CanonicalName(instanceId, zoneName);
    var doomed := Filter(sets, s => Doomed(fqdn, s));
    UnregisterIsFilter(instanceId, zoneName, sets);
    FilterMembers(sets, s => Doomed(fqdn, s), c.recordSet);
    if c in Deletes(doomed) {
      var i :| 0 <= i < |doomed| && Deletes(doomed)[i] == c;
      assert doomed[i] == c.recordSet;
    }
    if c.action == Delete && c.recordSet in doomed {
      var i :| 0 <= i < |doomed| && doomed[i] == c.recordSet;
      assert Deletes(doomed)[i] == c;
    }
  }

  /** The listing of the unregister test: a CNAME whose single value is `cnameValue`, the
      instance's own `A` set with an empty record list, and the zone's SOA with an empty record
      list. */
  function FixtureListing(cnameValue: string): seq<RecordSet> {
    [ RecordSet("test.example.org.", "CNAME", None, Some([cnameValue])),
      RecordSet("i-dummy.example.org.", "A", None, Some([])),
      RecordSet("example.org.", "SOA", None, Some([])) ]
  }

  /** Over a listing of three sets, unregister deletes the doomed ones in listing order. */
  lemma UnregisterThree(instanceId: string, zoneName: string, a: RecordSet, b: RecordSet, c: RecordSet)
    ensures var fqdn := CanonicalName(instanceId, zoneName);
      Unregister(instanceId, zoneName, Some([a, b, c])) ==
        (if Doomed(fqdn, a) then [Change(Delete, a)] else []) +
        (if Doomed(fqdn, b) then [Change(Delete, b)] else []) +
        (if Doomed(fqdn, c) then [Change(Delete, c)] else [])
  {
    assert [a, b, c] == [a] + [b] + [c];
    UnregisterConcat(instanceId, zoneName, [a] + [b], [c]);
    UnregisterConcat(instanceId, zoneName, [a], [b]);
    UnregisterOne(instanceId, zoneName, a);
    UnregisterOne(instanceId, zoneName, b);
    UnregisterOne(instanceId, zoneName, c);
  }

  /** The canonical name of the fixture instance in the fixture zone. */
  lemma FixtureFqdn()
    ensures CanonicalName("i-dummy", "example.org.") == "i-dummy.example.org."
  {
    assert "i-dummy" + "." == "i-dummy.";
    assert "i-dummy." + "example.org." == "i-dummy.example.org.";
  }

  /** With the dotted value, both the CNAME (by value) and the empty `A` set (by name) are deleted,
      in that order; the SOA is not. */
  lemma UnregisterFixture()
    ensures var changes := Unregister("i-dummy", "example.org.", Some(FixtureListing("i-dummy.example.org.")));
      changes == [Change(Delete, FixtureListing("i-dummy.example.org.")[0]),
                  Change(Delete, FixtureListing("i-dummy.example.org.")[1])] &&
      changes[0].recordSet.rrType == "CNAME" && changes[1].recordSet.rrType == "A"
  {
    var fqdn := CanonicalName("i-dummy", "example.org.");
    FixtureFqdn();
    var sets := FixtureListing(fqdn);
    assert Doomed(fqdn, sets[0]) by {
      assert fqdn in sets[0].resourceRecords.value;
    }
    assert Doomed(fqdn, sets[1]);
    assert !Doomed(fqdn, sets[2]) by {
      assert |sets[2].name| != |fqdn|;
    }
    UnregisterThree("i-dummy", "example.org.", sets[0], sets[1], sets[2]);
  }

  /** Matching is exact: a value without the trailing dot does not name the instance, so only the
      `A` set is deleted. */
  lemma UnregisterUndottedFixture()
    ensures Unregister("i-dummy", "example.org.", Some(FixtureListing("i-dummy.example.org"))) ==
      [Change(Delete, FixtureListing("i-dummy.example.org")[1])]
  {
    var fqdn := CanonicalName("i-dummy", "example.org.");
    FixtureFqdn();
    var sets := FixtureListing("i-dummy.example.org");
    assert !Doomed(fqdn, sets[0]) by {
      assert sets[0].name[0] != fqdn[0];
      assert sets[0].resourceRecords.value == ["i-dummy.example.org"];
      assert |"i-dummy.example.org"| != |fqdn|;
    }
    assert Doomed(fqdn, sets[1]);
    assert !Doomed(fqdn, sets[2]) by {
      assert |sets[2].name| != |fqdn|;
    }
    UnregisterThree("i-dummy", "example.org.", sets[0], sets[1], sets[2]);
  }
}
