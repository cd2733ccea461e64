/**
 * `parse_card_info`: the card details read from an image file's stem. The
 * regular expressions it applies (`Reg.PATH_*`) are not part of this model,
 * so they are inputs and only the way their matches are combined is modelled.
 */
module CardInfo {
  import opened Wrappers
  import opened Text

  /** What `re.split` returns: never an empty list. */
  type Pieces = s: seq<string> | |s| >= 1 witness [""]

  /** The filename patterns: the split on tag delimiters, and the first group of each tag search, if it matched. */
  datatype Patterns = Patterns(
    pathSplit: string -> Pieces,
    pathArtist: string -> Option<string>,
    pathNum: string -> Option<string>,
    pathSet: string -> Option<string>)

  /** The card details dict; an absent tag is the empty string. */
  datatype CardDetails = CardDetails(filename: string, name: string, setCode: string, artist: string,
                                     number: string, creator: string)

  /**
   * `parse_card_info(file_path)` on a path and its stem. The name is the
   * first split piece without surrounding whitespace, a collector number is
   * kept only together with a set code, and the creator is the last split
   * piece, read only when the stem holds a `$`.
   */
  function ParseCardInfo(filePath: string, stem: string, reg: Patterns): (r: CardDetails)
    ensures r.filename == filePath
    ensures StrippedFrom(reg.pathSplit(stem)[0], r.name)
    ensures r.setCode == reg.pathSet(stem).GetOr("")
    ensures r.artist == reg.pathArtist(stem).GetOr("")
    ensures r.number != "" ==> reg.pathSet(stem).Some? && reg.pathNum(stem) == Some(r.number)
    ensures reg.pathSet(stem).Some? ==> r.number == reg.pathNum(stem).GetOr("")
    ensures '$' !in stem ==> r.creator == ""
    ensures '$' in stem ==> r.creator == reg.pathSplit(stem)[|reg.pathSplit(stem)| - 1]
  {
    var pieces := reg.pathSplit(stem);
    var code := reg.pathSet(stem);
    var number := reg.pathNum(stem);
    var name := Strip(pieces[0]);
    var creator := if '$' in stem then pieces[|pieces| - 1] else "";
    CardDetails(filePath, name, code.GetOr(""), reg.pathArtist(stem).GetOr(""),
                if number.Some? && code.Some? then number.value else "", creator)
  }
}
