/**
 * The layout classifier, `process_scryfall_data`: an ordered cascade that
 * rewrites a card record's `layout` (meld, then two-face relabelling, then
 * mutate, then single-face planeswalker).
 */
module Classifier {
  import opened Wrappers
  import opened Text
  import opened Cards

  /**
   * The collaborators the classifier calls: `normalize_str(s, True)`, the
   * members of the `TransformIcons` enum, `TransformIcons.MELD`, and the
   * per-face fetch of line 420 (None when the request or its JSON decoding
   * raises).
   */
  datatype Oracle = Oracle(
    normalize: string -> string,
    transformIcons: set<string>,
    meldIcon: string,
    fetchFace: string -> Option<Face>)

  /** The exceptions that escape `process_scryfall_data` (nothing catches them). */
  datatype Fault =
    | MissingMeldResult   // `back['name']` with `back` still None
    | MissingMeldPart     // `front[0]` or `front[1]` out of range
    | MissingFace         // `card_faces[0]` or `card_faces[1]` out of range
    | FaceFetchFailed     // the face request raised

  /** The outcome of one call: the processed record, or the exception it raised. */
  datatype Processed = Done(card: Card) | Raised(fault: Fault)

  predicate IsMeldPart(p: Part) { p.component == Some("meld_part") }

  predicate IsMeldResult(p: Part) { p.component == Some("meld_result") }

  /** The `meld_part` entries of `all_parts`, in order. */
  function MeldFronts(parts: seq<Part>): (r: seq<Part>)
    ensures |r| <= |parts|
    ensures forall i :: 0 <= i < |r| ==> IsMeldPart(r[i]) && r[i] in parts
  {
    if parts == [] then []
    else
      var last := parts[|parts| - 1];
      MeldFronts(parts[..|parts| - 1]) + (if IsMeldPart(last) then [last] else [])
  }

  /** The last `meld_result` entry of `all_parts`: the loop reassigns `back` at each one. */
  function MeldBack(parts: seq<Part>): (r: Option<Part>)
    ensures r.None? <==> forall i :: 0 <= i < |parts| ==> !IsMeldResult(parts[i])
    ensures r.Some? ==> exists k :: 0 <= k < |parts| && parts[k] == r.value && IsMeldResult(parts[k])
                          && forall j :: k < j < |parts| ==> !IsMeldResult(parts[j])
  {
    if parts == [] then None
    else
      var last := parts[|parts| - 1];
      if IsMeldResult(last) then
        assert parts[|parts| - 1] == last;
        Some(last)
      else
        var rest := MeldBack(parts[..|parts| - 1]);
        assert forall i :: 0 <= i < |parts| - 1 ==> parts[..|parts| - 1][i] == parts[i];
        rest
  }

  /** The filter is compositional: the fronts of a concatenation are the concatenated fronts. */
  lemma {:induction false} MeldFrontsConcat(a: seq<Part>, b: seq<Part>)
    ensures MeldFronts(a + b) == MeldFronts(a) + MeldFronts(b)
    decreases |b|
  {
    if b == [] {
      assert a + b == a;
    } else {
      var b' := b[..|b| - 1];
      assert (a + b)[..|a + b| - 1] == a + b';
      MeldFrontsConcat(a, b');
    }
  }

  /** Every `meld_part` entry is kept, and only those. */
  lemma {:induction false} MeldFrontsExact(parts: seq<Part>, p: Part)
    ensures p in MeldFronts(parts) <==> p in parts && IsMeldPart(p)
    decreases |parts|
  {
    if parts != [] {
      var init := parts[..|parts| - 1];
      MeldFrontsExact(init, p);
      assert parts == init + [parts[|parts| - 1]];
    }
  }

  /** The face references the meld branch picks, or the exception picking them raises. */
  datatype FaceRefs = Refs(front: Part, back: Part) | RefsFailed(fault: Fault)

  /**
   * `[front[0], back]` when the queried name is the back's or the first
   * front's, else `[front[1], back]`, evaluated in Python's order so that
   * each missing entry raises where the source raises.
   */
  function MeldRefs(fronts: seq<Part>, back: Option<Part>, nameNormalized: string,
                    normalize: string -> string): FaceRefs
  {
    if back.None? then RefsFailed(MissingMeldResult)
    else if nameNormalized == normalize(back.value.name) then
      if |fronts| > 0 then Refs(fronts[0], back.value) else RefsFailed(MissingMeldPart)
    else if |fronts| == 0 then RefsFailed(MissingMeldPart)
    else if nameNormalized == normalize(fronts[0].name) then Refs(fronts[0], back.value)
    else if |fronts| > 1 then Refs(fronts[1], back.value)
    else RefsFailed(MissingMeldPart)
  }

  /** `{**json, 'object': 'card_face'}`. */
  function AsCardFace(f: Face): Face {
    f.(objectKind := "card_face")
  }

  /** `any(n in TransformIcons for n in frame_effects)`. */
  predicate HasTransformIcon(effects: seq<string>, icons: set<string>) {
    exists i :: 0 <= i < |effects| && effects[i] in icons
  }

  /** The frame effects after "add meld transform icon if none provided" (`setdefault(...).append`). */
  function AddMeldIcon(effects: Option<seq<string>>, icons: set<string>, meld: string): Option<seq<string>> {
    if HasTransformIcon(effects.GetOr([]), icons) then effects
    else Some(effects.GetOr([]) + [meld])
  }

  /** The meld branch: synthesise two faces, add the icon, relabel as `transform`. */
  function MeldStep(data: Card, o: Oracle): Processed {
    match MeldRefs(MeldFronts(data.allParts), MeldBack(data.allParts), data.nameNormalized, o.normalize)
    case RefsFailed(f) => Raised(f)
    case Refs(front, back) =>
      var first := o.fetchFace(front.uri);
      if first.None? then Raised(FaceFetchFailed)
      else
        var second := o.fetchFace(back.uri);
        if second.None? then Raised(FaceFetchFailed)
        else
          Done(data.(cardFaces := Some([AsCardFace(first.value), AsCardFace(second.value)]),
                     frameEffects := AddMeldIcon(data.frameEffects, o.transformIcons, o.meldIcon),
                     layout := "transform"))
  }

  /** The face whose name matches the query: the first if its normalized name matches, else the second. */
  function SelectFace(faces: seq<Face>, nameNormalized: string, normalize: string -> string): Option<Face> {
    if |faces| == 0 then None
    else if normalize(faces[0].name) == nameNormalized then Some(faces[0])
    else if |faces| > 1 then Some(faces[1])
    else None
  }

  /** The relabelling of a two-face record by its selected face's type line. */
  function FaceLayout(layout: string, typeLine: string): string {
    var afterPlaneswalker :=
      if Contains(typeLine, "Planeswalker") then
        (if layout == "transform" then "planeswalker_tf" else "planeswalker_mdfc")
      else layout;
    var afterSaga := if Contains(typeLine, "Saga") then "saga" else afterPlaneswalker;
    if Contains(typeLine, "Battle") then "battle" else afterSaga
  }

  /** The relabelling of a single-face record: mutate, then planeswalker. */
  function SingleFaceLayout(data: Card): string {
    if "Mutate" in data.keywords then "mutate"
    else if Contains(data.typeLine.GetOr(""), "Planeswalker") then "planeswalker"
    else data.layout
  }

  /** What `process_scryfall_data` does to a record, as a function of the record. */
  function Classify(data: Card, o: Oracle): Processed {
    var afterMeld := if data.layout == "meld" then MeldStep(data, o) else Done(data);
    match afterMeld
    case Raised(f) => Raised(f)
    case Done(d) =>
      if d.cardFaces.Some? then
        match SelectFace(d.cardFaces.value, d.nameNormalized, o.normalize)
        case None => Raised(MissingFace)
        case Some(face) => Done(d.(layout := FaceLayout(d.layout, face.typeLine)))
      else Done(d.(layout := SingleFaceLayout(d)))
  }

  /**
   * The meld branch of `process_scryfall_data`, step by step: the loop
   * collects the front candidates and the last back, then the faces are
   * fetched and the record rewritten.
   */
  method ProcessMeld(data: Card, o: Oracle) returns (r: Processed)
    ensures r == MeldStep(data, o)
  {
    var front: seq<Part> := [];
    var back: Option<Part> := None;
    var i := 0;
    while i < |data.allParts|
      invariant 0 <= i <= |data.allParts|
      invariant front == MeldFronts(data.allParts[..i])
      invariant back == MeldBack(data.allParts[..i])
    {
      var part := data.allParts[i];
      assert data.allParts[..i + 1][..i] == data.allParts[..i];
      if part.component == Some("meld_part") {
        front := front + [part];
      }
      if part.component == Some("meld_result") {
        back := Some(part);
      }
      i := i + 1;
    }
    assert data.allParts[..i] == data.allParts;
    if back.None? {
      return Raised(MissingMeldResult);
    }
    var useFirst: bool;
    if data.nameNormalized == o.normalize(back.value.name) {
      useFirst := true;
    } else if |front| == 0 {
      return Raised(MissingMeldPart);
    } else {
      useFirst := data.nameNormalized == o.normalize(front[0].name);
    }
    if (useFirst && |front| == 0) || (!useFirst && |front| < 2) {
      return Raised(MissingMeldPart);
    }
    var chosen := if useFirst then front[0] else front[1];
    var first := o.fetchFace(chosen.uri);
    if first.None? {
      return Raised(FaceFetchFailed);
    }
    var second := o.fetchFace(back.value.uri);
    if second.None? {
      return Raised(FaceFetchFailed);
    }
    var card := data.(cardFaces := Some([first.value.(objectKind := "card_face"),
                                         second.value.(objectKind := "card_face")]));
    if !HasTransformIcon(card.frameEffects.GetOr([]), o.transformIcons) {
      card := card.(frameEffects := Some(card.frameEffects.GetOr([]) + [o.meldIcon]));
    }
    card := card.(layout := "transform");
    return Done(card);
  }

  /**
   * `process_scryfall_data`, step by step: the meld branch, then the record
   * is rewritten field by field.
   */
  method ProcessScryfallData(data: Card, o: Oracle) returns (r: Processed)
    ensures r == Classify(data, o)
  {
    var card := data;
    if card.layout == "meld" {
      var melded := ProcessMeld(card, o);
      if melded.Raised? {
        return melded;
      }
      card := melded.card;
    }
    if card.cardFaces.Some? {
      var faces := card.cardFaces.value;
      if |faces| == 0 {
        return Raised(MissingFace);
      }
      var face: Face;
      if o.normalize(faces[0].name) == card.nameNormalized {
        face := faces[0];
      } else if |faces| < 2 {
        return Raised(MissingFace);
      } else {
        face := faces[1];
      }
      if Contains(face.typeLine, "Planeswalker") {
        card := card.(layout := if card.layout == "transform" then "planeswalker_tf" else "planeswalker_mdfc");
      }
      if Contains(face.typeLine, "Saga") {
        card := card.(layout := "saga");
      }
      if Contains(face.typeLine, "Battle") {
        card := card.(layout := "battle");
      }
      return Done(card);
    }
    if "Mutate" in card.keywords {
      card := card.(layout := "mutate");
      return Done(card);
    }
    if Contains(card.typeLine.GetOr(""), "Planeswalker") {
      card := card.(layout := "planeswalker");
      return Done(card);
    }
    return Done(card);
  }

  /** The precedence of the two-face relabelling: Battle over Saga over Planeswalker. */
  lemma FaceLayoutCases(layout: string, typeLine: string)
    ensures Contains(typeLine, "Battle") ==> FaceLayout(layout, typeLine) == "battle"
    ensures !Contains(typeLine, "Battle") && Contains(typeLine, "Saga") ==> FaceLayout(layout, typeLine) == "saga"
    ensures !Contains(typeLine, "Battle") && !Contains(typeLine, "Saga") && Contains(typeLine, "Planeswalker") ==>
              FaceLayout(layout, typeLine) == (if layout == "transform" then "planeswalker_tf" else "planeswalker_mdfc")
    ensures !Contains(typeLine, "Battle") && !Contains(typeLine, "Saga") && !Contains(typeLine, "Planeswalker") ==>
              FaceLayout(layout, typeLine) == layout
  {
  }

  /**
   * The meld branch raises with no result part, with no front part, with a
   * single front that neither name matches, and when a face request fails.
   */
  lemma MeldFailures(data: Card, o: Oracle)
    requires data.layout == "meld"
    ensures var fronts, back := MeldFronts(data.allParts), MeldBack(data.allParts);
      && (back.None? ==> Classify(data, o) == Raised(MissingMeldResult))
      && (back.Some? && |fronts| == 0 ==> Classify(data, o) == Raised(MissingMeldPart))
      && ((back.Some? && |fronts| == 1 && data.nameNormalized != o.normalize(back.value.name)
             && data.nameNormalized != o.normalize(fronts[0].name)) ==> Classify(data, o) == Raised(MissingMeldPart))
    ensures var fronts, back := MeldFronts(data.allParts), MeldBack(data.allParts);
      back.Some? && |fronts| >= 1 ==>
      var matchesFirst := data.nameNormalized == o.normalize(back.value.name)
                          || data.nameNormalized == o.normalize(fronts[0].name);
      (matchesFirst || |fronts| >= 2) ==>
      o.fetchFace((if matchesFirst then fronts[0] else fronts[1]).uri).None? || o.fetchFace(back.value.uri).None? ==>
      Classify(data, o) == Raised(FaceFetchFailed)
  {
  }

  /** A meld record with a result part, a usable front part and both faces fetched is processed without raising. */
  lemma MeldSucceeds(data: Card, o: Oracle)
    requires data.layout == "meld"
    ensures var fronts, back := MeldFronts(data.allParts), MeldBack(data.allParts);
      back.Some? && |fronts| >= 1 ==>
      var matchesFirst := data.nameNormalized == o.normalize(back.value.name)
                          || data.nameNormalized == o.normalize(fronts[0].name);
      (matchesFirst || |fronts| >= 2) ==>
      o.fetchFace((if matchesFirst then fronts[0] else fronts[1]).uri).Some? && o.fetchFace(back.value.uri).Some? ==>
      Classify(data, o).Done?
  {
    var afterMeld := MeldStep(data, o);
    if afterMeld.Done? {
      assert |afterMeld.card.cardFaces.value| == 2;
    }
  }

  /**
   * A processed meld record: the faces are `[front[0], back]` when the
   * queried name is the back's or the first front's, else
   * `[front[1], back]`, each tagged `card_face`; the icon rule applies; and
   * the layout is `transform` relabelled by the face whose name matches.
   */
  lemma MeldClassification(data: Card, o: Oracle)
    requires data.layout == "meld"
    ensures Classify(data, o).Done? ==>
      var fronts, back, out := MeldFronts(data.allParts), MeldBack(data.allParts), Classify(data, o).card;
      var matchesFirst := data.nameNormalized == o.normalize(back.value.name)
                          || data.nameNormalized == o.normalize(fronts[0].name);
      var first := o.fetchFace((if matchesFirst then fronts[0] else fronts[1]).uri).value;
      var second := o.fetchFace(back.value.uri).value;
      && back.Some? && |fronts| >= 1 && (matchesFirst || |fronts| >= 2)
      && out.cardFaces == Some([AsCardFace(first), AsCardFace(second)])
      && (forall f :: f in out.cardFaces.value ==> f.objectKind == "card_face")
      && out.frameEffects == AddMeldIcon(data.frameEffects, o.transformIcons, o.meldIcon)
      && out.layout == FaceLayout("transform", (if o.normalize(first.name) == data.nameNormalized then first else second).typeLine)
      && out.layout in {"transform", "planeswalker_tf", "saga", "battle"}
      && out == data.(cardFaces := out.cardFaces, frameEffects := out.frameEffects, layout := out.layout)
  {
    var afterMeld := MeldStep(data, o);
    if afterMeld.Done? {
      var d := afterMeld.card;
      assert |d.cardFaces.value| == 2;
      var face := SelectFace(d.cardFaces.value, d.nameNormalized, o.normalize);
      assert face.Some?;
      FaceLayoutCases("transform", face.value.typeLine);
    }
  }

  /**
   * The meld icon is appended only when no existing entry is a TransformIcons
   * member; afterwards one is, so a second application appends nothing.
   */
  lemma MeldIconAppendedOnce(effects: Option<seq<string>>, icons: set<string>, meld: string)
    requires meld in icons
    ensures var after := AddMeldIcon(effects, icons, meld);
      && HasTransformIcon(after.GetOr([]), icons)
      && (HasTransformIcon(effects.GetOr([]), icons) ==> after == effects)
      && (!HasTransformIcon(effects.GetOr([]), icons) ==> after == Some(effects.GetOr([]) + [meld]))
      && AddMeldIcon(after, icons, meld) == after
  {
    var after := AddMeldIcon(effects, icons, meld);
    if !HasTransformIcon(effects.GetOr([]), icons) {
      var s := effects.GetOr([]) + [meld];
      assert s[|s| - 1] == meld;
    }
  }

  /**
   * Re-processing a processed meld record succeeds and leaves its faces and
   * frame effects as they are: no second meld marker is appended.
   */
  lemma ReprocessingMeldAddsNoMarker(data: Card, o: Oracle)
    requires data.layout == "meld" && o.meldIcon in o.transformIcons
    requires Classify(data, o).Done?
    ensures var once := Classify(data, o).card;
      && HasTransformIcon(once.frameEffects.GetOr([]), o.transformIcons)
      && Classify(once, o).Done?
      && Classify(once, o).card.frameEffects == once.frameEffects
      && Classify(once, o).card.cardFaces == once.cardFaces
  {
    MeldClassification(data, o);
    MeldIconAppendedOnce(data.frameEffects, o.transformIcons, o.meldIcon);
    var once := Classify(data, o).card;
    assert |once.cardFaces.value| == 2;
  }

  /**
   * A record that is not meld but carries `card_faces`: the first face is
   * selected iff its normalized name matches, else the second; the layout is
   * relabelled by that face's type line and nothing else changes, and the
   * mutate and planeswalker checks never run.
   */
  lemma TwoFaceClassification(data: Card, o: Oracle)
    requires data.layout != "meld" && data.cardFaces.Some?
    ensures var faces := data.cardFaces.value;
      && (|faces| == 0 ==> Classify(data, o) == Raised(MissingFace))
      && (|faces| == 1 && o.normalize(faces[0].name) != data.nameNormalized ==> Classify(data, o) == Raised(MissingFace))
      && (|faces| > 0 && o.normalize(faces[0].name) == data.nameNormalized ==>
            Classify(data, o) == Done(data.(layout := FaceLayout(data.layout, faces[0].typeLine))))
      && (|faces| > 1 && o.normalize(faces[0].name) != data.nameNormalized ==>
            Classify(data, o) == Done(data.(layout := FaceLayout(data.layout, faces[1].typeLine))))
  {
  }

  /**
   * A record with neither meld layout nor `card_faces`: only `layout`
   * changes, to `mutate` for a Mutate keyword, else to `planeswalker` for a
   * Planeswalker type line, else not at all.
   */
  lemma SingleFaceClassification(data: Card, o: Oracle)
    requires data.layout != "meld" && data.cardFaces.None?
    ensures Classify(data, o).Done?
    ensures var out := Classify(data, o).card;
      && out == data.(layout := out.layout)
      && ("Mutate" in data.keywords ==> out.layout == "mutate")
      && ("Mutate" !in data.keywords && Contains(data.typeLine.GetOr(""), "Planeswalker") ==> out.layout == "planeswalker")
      && ("Mutate" !in data.keywords && !Contains(data.typeLine.GetOr(""), "Planeswalker") ==> out == data)
  {
  }
}
