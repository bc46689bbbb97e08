/** The Spotify player: turns a shared track link into the address of the
    embeddable player, and renders nothing for an empty link. */
module SpotifyPlayer {
  import opened Wrappers

  /** The outcome of parsing the link as a URL: its path and query parts,
      or `Unparsable` when the URL constructor throws. */
  datatype ParsedUrl = Parsed(pathname: string, search: string) | Unparsable

  const EmbedPrefix := "https://open.spotify.com/embed/track/"
  const EmbedSuffix := "?utm_source=generator&theme=0"

  /** `String.prototype.split` with a one-character separator: the pieces
      between the separators, always at least one. Read from the back, a
      separator starts a new, empty last piece and any other character
      extends the last piece. */
  function Split(s: string, sep: char): (parts: seq<string>)
    ensures |parts| >= 1
    ensures forall i | 0 <= i < |parts| :: sep !in parts[i]
    decreases |s|
  {
    if s == "" then [""]
    else
      var init := Split(s[..|s| - 1], sep);
      var c := s[|s| - 1];
      if c == sep then init + [""]
      else init[..|init| - 1] + [init[|init| - 1] + [c]]
  }

  /** The pieces joined back with the separator. */
  function Join(parts: seq<string>, sep: char): string
    requires |parts| >= 1
    decreases |parts|
  {
    if |parts| == 1 then parts[0]
    else Join(parts[..|parts| - 1], sep) + [sep] + parts[|parts| - 1]
  }

  /** Joining after a new empty last piece adds one separator. */
  lemma JoinNewPiece(parts: seq<string>, sep: char)
    requires |parts| >= 1
    ensures Join(parts + [""], sep) == Join(parts, sep) + [sep]
  {
    assert (parts + [""])[..|parts|] == parts;
  }

  /** Joining after extending the last piece extends the joined string. */
  lemma JoinExtendLast(parts: seq<string>, sep: char, c: char)
    requires |parts| >= 1
    ensures var k := |parts| - 1;
      Join(parts[..k] + [parts[k] + [c]], sep) == Join(parts, sep) + [c]
  {
    var k := |parts| - 1;
    var ext := parts[..k] + [parts[k] + [c]];
    if k > 0 {
      assert ext[..k] == parts[..k];
    }
  }

  /** Splitting loses nothing: joining the pieces gives the string back. */
  lemma {:induction false} SplitJoin(s: string, sep: char)
    ensures Join(Split(s, sep), sep) == s
    decreases |s|
  {
    if s != "" {
      var front := s[..|s| - 1];
      var init := Split(front, sep);
      SplitJoin(front, sep);
      var c := s[|s| - 1];
      assert s == front + [c];
      if c == sep {
        assert Split(s, sep) == init + [""];
        JoinNewPiece(init, sep);
      } else {
        assert Split(s, sep) == init[..|init| - 1] + [init[|init| - 1] + [c]];
        JoinExtendLast(init, sep, c);
      }
    }
  }

  /** The last piece of a path split at '/'. */
  function LastSegment(path: string): (r: string)
    ensures '/' !in r
    ensures path == "" ==> r == ""
  {
    var parts := Split(path, '/');
    parts[|parts| - 1]
  }

  /** A final '/' starts an empty last piece; any other final character
      extends the last piece. */
  lemma LastSegmentStep(path: string)
    requires path != ""
    ensures LastSegment(path) ==
      if path[|path| - 1] == '/' then "" else LastSegment(path[..|path| - 1]) + [path[|path| - 1]]
  {
    var init := Split(path[..|path| - 1], '/');
    assert |init| >= 1;
  }

  /** A suffix that follows the last '/' of a string still does after one
      more character is appended to both. */
  lemma SuffixExtends(front: string, c: char, r: string)
    requires |r| <= |front| && r == front[|front| - |r|..]
    requires |r| < |front| ==> front[|front| - |r| - 1] == '/'
    ensures var path := front + [c];
      && r + [c] == path[|path| - |r| - 1..]
      && (|r| < |front| ==> path[|path| - |r| - 2] == '/')
  {
    var path := front + [c];
    assert path[|path| - |r| - 1..] == front[|front| - |r|..] + [c];
    if |r| < |front| {
      assert path[|path| - |r| - 2] == front[|front| - |r| - 1];
    }
  }

  /** The last piece is exactly what follows the last '/' of the path (the
      whole path when it has none). */
  lemma {:induction false} LastSegmentIsAfterLastSlash(path: string)
    ensures var r := LastSegment(path);
      && '/' !in r
      && |r| <= |path| && r == path[|path| - |r|..]
      && (|r| < |path| ==> path[|path| - |r| - 1] == '/')
    decreases |path|
  {
    if path != "" {
      var front := path[..|path| - 1];
      var c := path[|path| - 1];
      assert path == front + [c];
      LastSegmentIsAfterLastSlash(front);
      LastSegmentStep(path);
      if c != '/' {
        SuffixExtends(front, c, LastSegment(front));
      }
    }
  }

  /** A path that ends in '/' gives an empty track id. */
  lemma TrailingSlashGivesEmptyId(path: string)
    requires |path| > 0 && path[|path| - 1] == '/'
    ensures LastSegment(path) == ""
  {
    LastSegmentIsAfterLastSlash(path);
  }

  /** The embeddable player address for a track id. */
  function EmbedFor(id: string): string
  {
    EmbedPrefix + id + EmbedSuffix
  }

  /** `getEmbedUrl`: the player address for the last path piece of a link
      that parses, and the link itself when it does not. For a parsed link
      the id read back from the address is the part of the path after its
      last '/', so the query plays no part in it. */
  function EmbedUrl(original: string, parsed: ParsedUrl): (r: string)
    ensures parsed.Unparsable? ==> r == original
    ensures parsed.Parsed? ==>
      var p := parsed.pathname;
      && TrackIdOf(r).Some?
      && var id := TrackIdOf(r).value;
      && '/' !in id
      && |id| <= |p| && id == p[|p| - |id|..]
      && (|id| < |p| ==> p[|p| - |id| - 1] == '/')
  {
    match parsed
    case Unparsable => original
    case Parsed(pathname, _) =>
      var id := LastSegment(pathname);
      LastSegmentIsAfterLastSlash(pathname);
      EmbedRoundTrip(id);
      EmbedFor(id)
  }

  /** The track id read back out of a player address. */
  function TrackIdOf(embed: string): Option<string>
  {
    if |embed| >= |EmbedPrefix| + |EmbedSuffix|
       && embed[..|EmbedPrefix|] == EmbedPrefix
       && embed[|embed| - |EmbedSuffix|..] == EmbedSuffix
    then Some(embed[|EmbedPrefix|..|embed| - |EmbedSuffix|])
    else None
  }

  /** The player address carries the track id and nothing else varies. */
  lemma EmbedRoundTrip(id: string)
    ensures TrackIdOf(EmbedFor(id)) == Some(id)
  {
    var e := EmbedFor(id);
    assert e[..|EmbedPrefix|] == EmbedPrefix;
    assert e[|e| - |EmbedSuffix|..] == EmbedSuffix;
    assert e[|EmbedPrefix|..|e| - |EmbedSuffix|] == id;
  }

  /** The component: nothing for an empty link, otherwise a player whose
      source is the embed address. */
  function Player(url: string, parsed: ParsedUrl): (src: Option<string>)
    ensures url == "" <==> src.None?
    ensures src.Some? && parsed.Parsed? ==> TrackIdOf(src.value) == Some(LastSegment(parsed.pathname))
    ensures src.Some? && parsed.Unparsable? ==> src.value == url
  {
    if url == "" then None
    else
      match parsed
      case Unparsable => Some(EmbedUrl(url, parsed))
      case Parsed(pathname, _) =>
        EmbedRoundTrip(LastSegment(pathname));
        Some(EmbedUrl(url, parsed))
  }
}
