/**
  The ingest side every relay server shares: the RTMP stream path the
  encoder publishes to (stream key "my-stream-key" under the "live"
  application), the test for a missing path, and the permissive path match
  of the multi-platform and React relay servers, which accept the target
  path in three spellings and as a suffix.
*/
module Ingest {
  import opened Wrappers
  import opened Text

  const StreamName: string := "my-stream-key"
  const Target: string := "/live/" + StreamName
  const TargetPaths: seq<string> := [Target, "live/" + StreamName, StreamName]

  /** The local RTMP server the relays read from, and the stream on it. */
  const IngestBase: string := "rtmp://127.0.0.1:1935"
  const IngestUrl: string := IngestBase + Target

  /** YouTube's RTMP ingest; the stream key is appended. */
  const YouTubeBase: string := "rtmp://a.rtmp.youtube.com/live2/"

  /** `actualPath === targetPath || actualPath.endsWith(targetPath)` */
  predicate MatchesVariant(path: string, variant: string) {
    path == variant || EndsWith(path, variant)
  }

  predicate IsTargetPath(path: string) {
    exists i | 0 <= i < |TargetPaths| :: MatchesVariant(path, TargetPaths[i])
  }

  /** The `for … of targetPaths` loop of the prePublish handler, which stops
      at the first variant that matches. */
  method MatchTarget(actualPath: string) returns (isTarget: bool)
    ensures isTarget <==> IsTargetPath(actualPath)
  {
    isTarget := false;
    var i := 0;
    while i < |TargetPaths|
      invariant 0 <= i <= |TargetPaths|
      invariant forall j | 0 <= j < i :: !MatchesVariant(actualPath, TargetPaths[j])
    {
      if actualPath == TargetPaths[i] || EndsWith(actualPath, TargetPaths[i]) {
        isTarget := true;
        break;
      }
      i := i + 1;
    }
  }

  /** The three accepted variants amount to one suffix test: a path is a
      target path exactly when it ends with "my-stream-key". */
  lemma TargetPathIffSuffix(path: string)
    ensures IsTargetPath(path) <==> EndsWith(path, StreamName)
  {
    if IsTargetPath(path) {
      var i :| 0 <= i < |TargetPaths| && MatchesVariant(path, TargetPaths[i]);
      EndsWithConcat("/live/", StreamName);
      EndsWithConcat("live/", StreamName);
      EndsWithConcat([], StreamName);
      EndsWithTrans(path, TargetPaths[i], StreamName);
    } else {
      assert !MatchesVariant(path, TargetPaths[2]);
    }
  }

  /** `!StreamPath || StreamPath === 'undefined'` */
  predicate PathUndefined(streamPath: Option<string>) {
    streamPath == None || streamPath == Some("") || streamPath == Some("undefined")
  }
}
