/** Reading a tag value off an instance: the first tag with the key wins. */
module Tags {
  import opened Wrappers
  import opened Records

  /** The `Value` of the first tag in `ts` whose `Key` is `key`; absent when none matches. */
  function FirstValue(ts: seq<Tag>, key: string): Option<string>
    decreases |ts|
  {
    if ts == [] then None
    else if ts[0].key == Some(key) then ts[0].value
    else FirstValue(ts[1..], key)
  }

  /** The tag lookup as a function of the instance's optional tag list. */
  function TagValue(tags: Option<seq<Tag>>, key: string): Option<string> {
    match tags
    case None => None
    case Some(ts) => FirstValue(ts, key)
  }

  /** The first matching tag decides the result; tags after it are never consulted. */
  lemma {:induction false} FirstValueAt(ts: seq<Tag>, key: string, i: nat)
    requires i < |ts| && ts[i].key == Some(key)
    requires forall j :: 0 <= j < i ==> ts[j].key != Some(key)
    ensures FirstValue(ts, key) == ts[i].value
  {
    if i > 0 {
      assert ts[0].key != Some(key);
      forall j | 0 <= j < i - 1 ensures ts[1..][j].key != Some(key) {
        assert ts[1..][j] == ts[j + 1];
      }
      FirstValueAt(ts[1..], key, i - 1);
    }
  }

  /** When no tag carries the key, the lookup runs off the end and yields nothing. */
  lemma {:induction false} FirstValueMissing(ts: seq<Tag>, key: string)
    requires forall j :: 0 <= j < |ts| ==> ts[j].key != Some(key)
    ensures FirstValue(ts, key) == None
  {
    if ts != [] {
      assert ts[0].key != Some(key);
      forall j | 0 <= j < |ts| - 1 ensures ts[1..][j].key != Some(key) {
        assert ts[1..][j] == ts[j + 1];
      }
      FirstValueMissing(ts[1..], key);
    }
  }

  /** A present result always comes from a tag that carries the key. */
  lemma {:induction false} FirstValueFrom(ts: seq<Tag>, key: string)
    requires FirstValue(ts, key).Some?
    ensures exists i :: 0 <= i < |ts| && ts[i].key == Some(key) && ts[i].value == FirstValue(ts, key)
  {
    if ts[0].key != Some(key) {
      FirstValueFrom(ts[1..], key);
      var i :| 0 <= i < |ts[1..]| && ts[1..][i].key == Some(key) && ts[1..][i].value == FirstValue(ts, key);
      assert ts[i + 1] == ts[1..][i];
    }
  }

  /**
   * getTagValue: a linear search over the instance's tags that returns the value of the first tag
   * whose key matches, and nothing when the tag list is absent or no tag matches.
   */
  method GetTagValue(instance: Instance, key: string) returns (value: Option<string>)
    ensures value == TagValue(instance.tags, key)
    ensures value.Some? ==> exists t :: t in instance.tags.value && t.key == Some(key) && t.value == value
  {
    if instance.tags.None? {
      return None;
    }
    var ts := instance.tags.value;
    var i := 0;
    while i < |ts|
      invariant 0 <= i <= |ts|
      invariant forall j :: 0 <= j < i ==> ts[j].key != Some(key)
    {
      if ts[i].key == Some(key) {
        FirstValueAt(ts, key, i);
        return ts[i].value;
      }
      i := i + 1;
    }
    FirstValueMissing(ts, key);
    return None;
  }
}
