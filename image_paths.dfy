/** Where an uploaded image lives: the data-directory path segments derived from the request
    attributes (ImageResource.getDirectoryPathAsList, getDirectoryPath, getFilePath). */
module ImagePaths {
  import opened Wrappers
  import opened Requests

  /** The fixed first segment of every image directory. */
  const Root := "workspaces"
  /** The marker segment that follows the feature type. */
  const ImagesMarker := "images"

  /** The nested levels of a request, outermost first. */
  function Levels(a: Attributes): (levels: seq<Option<string>>)
    ensures |levels| == 5
  {
    [a.workspace, a.datastore, a.featureType, a.fid, a.attribute]
  }

  /** How many leading levels are present. */
  function PresentDepth(levels: seq<Option<string>>): (d: nat)
    ensures d <= |levels|
    ensures forall i :: 0 <= i < d ==> levels[i].Some?
    ensures d < |levels| ==> levels[d].None?
  {
    if levels == [] || levels[0].None? then 0 else 1 + PresentDepth(levels[1..])
  }

  /** The deepest directory a request can name; absent levels are placeholders that
      never survive the cut made by ExpectedDirectory. */
  function FullDirectory(a: Attributes): seq<string> {
    [Root, a.workspace.GetOr(""), a.datastore.GetOr(""), a.featureType.GetOr(""),
     ImagesMarker, a.fid.GetOr(""), a.attribute.GetOr("")]
  }

  /** Number of segments kept for a given presence depth: the marker is counted once
      the feature type (depth 3) is present. */
  function SegmentCount(depth: nat): nat {
    if depth < 3 then depth + 1 else depth + 2
  }

  /** The reference definition of the directory path: the full path cut just after the
      deepest level whose enclosing levels are all present. */
  function ExpectedDirectory(a: Attributes): seq<string> {
    FullDirectory(a)[..SegmentCount(PresentDepth(Levels(a)))]
  }

  /** The reference definition of the file path: the directory plus `file.format` when both
      are present. */
  function ExpectedFile(a: Attributes): seq<string> {
    if a.file.Some? && a.format.Some? then ExpectedDirectory(a) + [a.file.value + "." + a.format.value]
    else ExpectedDirectory(a)
  }

  /** Builds the directory path by successive appends under nested presence tests. */
  method DirectoryPathAsList(a: Attributes) returns (path: seq<string>)
    ensures path == ExpectedDirectory(a)
  {
    DirectoryNesting(a);
    DirectorySegments(a);
    path := [];
    path := path + [Root];
    if a.workspace.Some? {
      path := path + [a.workspace.value];
      if a.datastore.Some? {
        path := path + [a.datastore.value];
        if a.featureType.Some? {
          path := path + [a.featureType.value];
          path := path + [ImagesMarker];
          if a.fid.Some? {
            path := path + [a.fid.value];
            if a.attribute.Some? {
              path := path + [a.attribute.value];
            }
          }
        }
      }
    }
  }

  /** The directory path as an array of segments (here, as a sequence). */
  method DirectoryPath(a: Attributes) returns (path: seq<string>)
    ensures path == ExpectedDirectory(a)
  {
    path := DirectoryPathAsList(a);
  }

  /** The directory path, extended in place by `file.format` when both are present. */
  method FilePath(a: Attributes) returns (path: seq<string>)
    ensures path == ExpectedFile(a)
  {
    path := DirectoryPathAsList(a);
    if a.file.Some? && a.format.Some? {
      path := path + [a.file.value + "." + a.format.value];
    }
  }

  /** The directory always starts at the root, is a prefix of the full path, and a level
      appears exactly when all enclosing levels are present; four segments never occur. */
  lemma DirectoryNesting(a: Attributes)
    ensures var p := ExpectedDirectory(a);
      && 1 <= |p| <= 7 && p[0] == Root
      && p <= FullDirectory(a)
      && (|p| >= 2 <==> a.workspace.Some?)
      && (|p| >= 3 <==> a.workspace.Some? && a.datastore.Some?)
      && (|p| >= 5 <==> a.workspace.Some? && a.datastore.Some? && a.featureType.Some?)
      && (|p| >= 6 <==> a.workspace.Some? && a.datastore.Some? && a.featureType.Some? && a.fid.Some?)
      && (|p| == 7 <==> a.workspace.Some? && a.datastore.Some? && a.featureType.Some?
                        && a.fid.Some? && a.attribute.Some?)
      && |p| != 4
  {
    var levels := Levels(a);
    var d := PresentDepth(levels);
    assert levels[0] == a.workspace && levels[1] == a.datastore && levels[2] == a.featureType
        && levels[3] == a.fid && levels[4] == a.attribute;
  }

  /** Each present level appears at its own position, holding the attribute's value. */
  lemma DirectorySegments(a: Attributes)
    ensures var p := ExpectedDirectory(a);
      && (|p| >= 2 ==> a.workspace == Some(p[1]))
      && (|p| >= 3 ==> a.datastore == Some(p[2]))
      && (|p| >= 5 ==> a.featureType == Some(p[3]) && p[4] == ImagesMarker)
      && (|p| >= 6 ==> a.fid == Some(p[5]))
      && (|p| == 7 ==> a.attribute == Some(p[6]))
  {
    DirectoryNesting(a);
  }

  /** The values of a run of present levels. */
  function Values(levels: seq<Option<string>>): (names: seq<string>)
    requires forall i :: 0 <= i < |levels| ==> levels[i].Some?
    ensures |names| == |levels|
    ensures forall i :: 0 <= i < |levels| ==> names[i] == levels[i].value
  {
    if levels == [] then [] else [levels[0].value] + Values(levels[1..])
  }

  /** A name occurs among the values as often as the present level holding it does. */
  lemma {:induction false} ValuesCount(levels: seq<Option<string>>, x: string)
    requires forall i :: 0 <= i < |levels| ==> levels[i].Some?
    ensures multiset(Values(levels))[x] == multiset(levels)[Some(x)]
  {
    if levels != [] {
      ValuesCount(levels[1..], x);
      assert levels == [levels[0]] + levels[1..];
      assert Values(levels) == [levels[0].value] + Values(levels[1..]);
    }
  }

  /** The directory path is the root, the values of the present levels, and the marker
      placed after the third of them. */
  lemma DirectoryAsValues(a: Attributes)
    ensures var levels := Levels(a);
            var d := PresentDepth(levels);
      ExpectedDirectory(a)
        == if d < 3 then [Root] + Values(levels[..d])
           else [Root] + Values(levels[..3]) + [ImagesMarker] + Values(levels[3..d])
  {
    DirectoryNesting(a);
    DirectorySegments(a);
  }

  /** Counting the marker in a path laid out as DirectoryAsValues describes. */
  lemma MarkerInLayout(levels: seq<Option<string>>, d: nat)
    requires d <= |levels|
    requires forall i :: 0 <= i < d ==> levels[i].Some?
    ensures var p := if d < 3 then [Root] + Values(levels[..d])
                     else [Root] + Values(levels[..3]) + [ImagesMarker] + Values(levels[3..d]);
      multiset(p)[ImagesMarker] == (if d < 3 then 0 else 1) + multiset(levels[..d])[Some(ImagesMarker)]
  {
    assert Root != ImagesMarker by { assert |Root| != |ImagesMarker|; }
    if d < 3 {
      ValuesCount(levels[..d], ImagesMarker);
      assert multiset([Root] + Values(levels[..d])) == multiset([Root]) + multiset(Values(levels[..d]));
    } else {
      var front, back := Values(levels[..3]), Values(levels[3..d]);
      ValuesCount(levels[..3], ImagesMarker);
      ValuesCount(levels[3..d], ImagesMarker);
      assert levels[..d] == levels[..3] + levels[3..d];
      assert multiset([Root] + front + [ImagesMarker] + back)
          == multiset([Root]) + multiset(front) + multiset([ImagesMarker]) + multiset(back);
    }
  }

  /** The marker segment occurs once for the marker itself when workspace, datastore and
      feature type are present, plus once for every level on the path whose value is
      itself "images". */
  lemma ImagesMarkerCount(a: Attributes)
    ensures var d := PresentDepth(Levels(a));
      multiset(ExpectedDirectory(a))[ImagesMarker]
        == (if a.workspace.Some? && a.datastore.Some? && a.featureType.Some? then 1 else 0)
           + multiset(Levels(a)[..d])[Some(ImagesMarker)]
  {
    var levels := Levels(a);
    var d := PresentDepth(levels);
    DirectoryAsValues(a);
    MarkerInLayout(levels, d);
    assert (d >= 3) == (a.workspace.Some? && a.datastore.Some? && a.featureType.Some?) by {
      assert levels[0] == a.workspace && levels[1] == a.datastore && levels[2] == a.featureType;
    }
  }

  /** When no level on the path is itself "images", the marker occurs exactly once, and only
      when workspace, datastore and feature type are all present. */
  lemma ImagesMarkerOnce(a: Attributes)
    requires forall i :: 0 <= i < PresentDepth(Levels(a)) ==> Levels(a)[i] != Some(ImagesMarker)
    ensures var p := ExpectedDirectory(a);
      multiset(p)[ImagesMarker] == if a.workspace.Some? && a.datastore.Some? && a.featureType.Some? then 1 else 0
  {
    ImagesMarkerCount(a);
    var prefix := Levels(a)[..PresentDepth(Levels(a))];
    assert Some(ImagesMarker) !in prefix;
  }

  /** The file path is the directory path, extended by exactly one `file.format` segment
      when both file and format are present and left as it is otherwise. */
  lemma FileExtendsDirectory(a: Attributes)
    ensures var dir, file := ExpectedDirectory(a), ExpectedFile(a);
      && dir <= file
      && (a.file.Some? && a.format.Some? ==>
            |file| == |dir| + 1 && file[|dir|] == a.file.value + "." + a.format.value)
      && (a.file.None? || a.format.None? ==> file == dir)
  {
  }
}
