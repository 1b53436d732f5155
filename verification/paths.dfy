/**
 Resource names that the builder formats from its project, location and
 collection (the fields an `AgentBuilderUtil` is constructed with) and a data
 store id. A name is its segments joined with '/'.
 */
module Paths {
  import opened Wrappers

  /** The coordinates an `AgentBuilderUtil` instance holds. */
  datatype Builder = Builder(projectId: string, location: string, collectionId: string)

  /** The collection used when the constructor is not given one. */
  const DefaultCollection: string := "default_collection"

  /** The builder a caller gets by passing only the project and location. */
  function NewBuilder(projectId: string, location: string): Builder {
    Builder(projectId, location, DefaultCollection)
  }

  /** The segments joined with '/' between consecutive ones. */
  function Join(segments: seq<string>): string
    requires |segments| > 0
    decreases |segments|
  {
    if |segments| == 1 then segments[0] else segments[0] + "/" + Join(segments[1..])
  }

  function CollectionSegments(b: Builder): seq<string> {
    ["projects", b.projectId, "locations", b.location, "collections", b.collectionId]
  }

  /** The segments of a data store's name before its id. */
  function DataStoreParent(b: Builder): seq<string> {
    CollectionSegments(b) + ["dataStores"]
  }

  function DataStoreSegments(b: Builder, dataStoreId: string): seq<string> {
    DataStoreParent(b) + [dataStoreId]
  }

  const ProcessingConfigLeaf: seq<string> := ["documentProcessingConfig"]
  const ServingConfigLeaf: seq<string> := ["servingConfigs", "default_serving_config"]

  /** The `name` of a document-processing configuration. */
  function ProcessingConfigName(b: Builder, dataStoreId: string): string {
    Join(DataStoreSegments(b, dataStoreId) + ProcessingConfigLeaf)
  }

  /** The `serving_config` of a search request. */
  function ServingConfigPath(b: Builder, dataStoreId: string): string {
    Join(DataStoreSegments(b, dataStoreId) + ServingConfigLeaf)
  }

  /** Joining two non-empty runs of segments puts one '/' between their joins. */
  lemma {:induction false} JoinAppend(s: seq<string>, t: seq<string>)
    requires |s| > 0 && |t| > 0
    ensures Join(s + t) == Join(s) + "/" + Join(t)
    decreases |s|
  {
    if |s| == 1 {
      assert (s + t)[1..] == t;
    } else {
      assert (s + t)[1..] == s[1..] + t;
      JoinAppend(s[1..], t);
    }
  }

  /** Joining with one segment in the middle puts that segment between two '/'. */
  lemma JoinAround(head: seq<string>, middle: string, tail: seq<string>)
    requires |head| > 0 && |tail| > 0
    ensures Join(head + [middle] + tail) == Join(head) + "/" + middle + ("/" + Join(tail))
  {
    var rest := [middle] + tail;
    assert head + [middle] + tail == head + rest;
    JoinAppend(head, rest);
    JoinAppend([middle], tail);
    assert Join([middle]) == middle;
    assert Join(rest) == middle + "/" + Join(tail);
  }

  /** Everything of a data store's name that comes before its id. */
  function DataStorePrefix(b: Builder): string {
    Join(DataStoreParent(b)) + "/"
  }

  /** A name under `b` is the prefix, the data store id, then the leaf. */
  lemma NameShape(b: Builder, dataStoreId: string, leaf: seq<string>)
    requires |leaf| > 0
    ensures Join(DataStoreSegments(b, dataStoreId) + leaf) == DataStorePrefix(b) + dataStoreId + ("/" + Join(leaf))
  {
    JoinAround(DataStoreParent(b), dataStoreId, leaf);
  }

  /**
   Reads the data store id back out of a name under `b` that ends with
   `suffix`; `None` when the name does not have that shape.
   */
  function DataStoreIdOf(b: Builder, name: string, suffix: string): (r: Option<string>)
    ensures r.Some? ==> DataStorePrefix(b) + r.value + suffix == name
  {
    var prefix := DataStorePrefix(b);
    if |prefix| + |suffix| <= |name| && prefix <= name && name[|name| - |suffix|..] == suffix then
      var id := name[|prefix|..|name| - |suffix|];
      assert name == name[..|prefix|] + id + name[|name| - |suffix|..];
      Some(id)
    else
      None
  }

  lemma {:induction false} DataStoreIdRoundTrip(b: Builder, dataStoreId: string, suffix: string)
    ensures DataStoreIdOf(b, DataStorePrefix(b) + dataStoreId + suffix, suffix) == Some(dataStoreId)
  {
    var prefix := DataStorePrefix(b);
    var name := prefix + dataStoreId + suffix;
    assert name[..|prefix|] == prefix;
    assert name[|name| - |suffix|..] == suffix;
    assert name[|prefix|..|name| - |suffix|] == dataStoreId;
  }

  /** The data store id can be read back from a configuration name. */
  lemma ProcessingConfigNameRoundTrip(b: Builder, dataStoreId: string)
    ensures DataStoreIdOf(b, ProcessingConfigName(b, dataStoreId), "/" + Join(ProcessingConfigLeaf)) == Some(dataStoreId)
  {
    NameShape(b, dataStoreId, ProcessingConfigLeaf);
    DataStoreIdRoundTrip(b, dataStoreId, "/" + Join(ProcessingConfigLeaf));
  }

  /** The data store id can be read back from a serving-config path. */
  lemma ServingConfigPathRoundTrip(b: Builder, dataStoreId: string)
    ensures DataStoreIdOf(b, ServingConfigPath(b, dataStoreId), "/" + Join(ServingConfigLeaf)) == Some(dataStoreId)
  {
    NameShape(b, dataStoreId, ServingConfigLeaf);
    DataStoreIdRoundTrip(b, dataStoreId, "/" + Join(ServingConfigLeaf));
  }

  /** Under one builder, distinct data store ids give distinct configuration names. */
  lemma ProcessingConfigNameInjective(b: Builder, id1: string, id2: string)
    requires ProcessingConfigName(b, id1) == ProcessingConfigName(b, id2)
    ensures id1 == id2
  {
    ProcessingConfigNameRoundTrip(b, id1);
    ProcessingConfigNameRoundTrip(b, id2);
  }

  /** Under one builder, distinct data store ids give distinct serving-config paths. */
  lemma ServingConfigPathInjective(b: Builder, id1: string, id2: string)
    requires ServingConfigPath(b, id1) == ServingConfigPath(b, id2)
    ensures id1 == id2
  {
    ServingConfigPathRoundTrip(b, id1);
    ServingConfigPathRoundTrip(b, id2);
  }

  /** No path separator inside a single segment. */
  predicate SlashFree(s: string) {
    '/' !in s
  }

  predicate AllSlashFree(segments: seq<string>) {
    forall i :: 0 <= i < |segments| ==> SlashFree(segments[i])
  }

  /** The index of the first '/' in `s`, or `|s|` when there is none. */
  function FirstSlash(s: string): (k: nat)
    ensures k <= |s|
    ensures k < |s| ==> s[k] == '/'
    ensures forall i :: 0 <= i < k ==> s[i] != '/'
  {
    if |s| == 0 || s[0] == '/' then 0 else 1 + FirstSlash(s[1..])
  }

  /** A slash-free segment followed by '/' ends exactly at the first '/'. */
  lemma {:induction false} FirstSlashAfterSegment(c: string, t: string)
    requires SlashFree(c)
    requires |t| > 0 && t[0] == '/'
    ensures FirstSlash(c + t) == |c|
    decreases |c|
  {
    if |c| == 0 {
      assert c + t == t;
    } else {
      assert (c + t)[0] == c[0];
      assert c[0] in c;
      assert (c + t)[1..] == c[1..] + t;
      assert SlashFree(c[1..]) by {
        forall x | x in c[1..] ensures x != '/' {
          assert x in c;
        }
      }
      FirstSlashAfterSegment(c[1..], t);
    }
  }

  /**
   A slash-free segment followed by text that starts with '/' is determined
   by the concatenation: the first '/' marks where the segment ends.
   */
  lemma SplitAtSlash(c1: string, t1: string, c2: string, t2: string)
    requires SlashFree(c1) && SlashFree(c2)
    requires |t1| > 0 && t1[0] == '/' && |t2| > 0 && t2[0] == '/'
    requires c1 + t1 == c2 + t2
    ensures c1 == c2 && t1 == t2
  {
    FirstSlashAfterSegment(c1, t1);
    FirstSlashAfterSegment(c2, t2);
    assert c1 == (c1 + t1)[..|c1|];
    assert c2 == (c2 + t2)[..|c2|];
    assert t1 == (c1 + t1)[|c1|..];
    assert t2 == (c2 + t2)[|c2|..];
  }

  /** Joining equally many slash-free segments is injective. */
  lemma {:induction false} JoinInjective(s1: seq<string>, s2: seq<string>)
    requires |s1| == |s2| > 0
    requires AllSlashFree(s1) && AllSlashFree(s2)
    requires Join(s1) == Join(s2)
    ensures s1 == s2
    decreases |s1|
  {
    if |s1| > 1 {
      var t1 := "/" + Join(s1[1..]);
      var t2 := "/" + Join(s2[1..]);
      assert Join(s1) == s1[0] + t1;
      assert Join(s2) == s2[0] + t2;
      assert SlashFree(s1[0]) && SlashFree(s2[0]);
      SplitAtSlash(s1[0], t1, s2[0], t2);
      assert Join(s1[1..]) == t1[1..] == t2[1..] == Join(s2[1..]);
      assert AllSlashFree(s1[1..]) by {
        forall i | 0 <= i < |s1[1..]| ensures SlashFree(s1[1..][i]) {
          assert s1[1..][i] == s1[i + 1];
        }
      }
      assert AllSlashFree(s2[1..]) by {
        forall i | 0 <= i < |s2[1..]| ensures SlashFree(s2[1..][i]) {
          assert s2[1..][i] == s2[i + 1];
        }
      }
      JoinInjective(s1[1..], s2[1..]);
      assert s1 == [s1[0]] + s1[1..];
      assert s2 == [s2[0]] + s2[1..];
    }
  }

  predicate SlashFreeBuilder(b: Builder) {
    SlashFree(b.projectId) && SlashFree(b.location) && SlashFree(b.collectionId)
  }

  /**
   When no component contains '/', the configuration name determines the
   whole tuple (project, location, collection, data store id).
   */
  lemma ProcessingConfigNameDeterminesTuple(b1: Builder, id1: string, b2: Builder, id2: string)
    requires SlashFreeBuilder(b1) && SlashFree(id1)
    requires SlashFreeBuilder(b2) && SlashFree(id2)
    requires ProcessingConfigName(b1, id1) == ProcessingConfigName(b2, id2)
    ensures b1 == b2 && id1 == id2
  {
    var s1 := DataStoreSegments(b1, id1) + ProcessingConfigLeaf;
    var s2 := DataStoreSegments(b2, id2) + ProcessingConfigLeaf;
    assert AllSlashFree(s1);
    assert AllSlashFree(s2);
    JoinInjective(s1, s2);
    assert s1[1] == s2[1] && s1[3] == s2[3] && s1[5] == s2[5] && s1[7] == s2[7];
  }
}
