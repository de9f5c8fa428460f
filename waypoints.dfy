/**
  The waypoint loader: the text of every `<coordinates>` element of the
  route document, in document order, becomes a list of (latitude,
  longitude) waypoints. Each whitespace-separated token is written
  `longitude,latitude[,altitude]`; the altitude is dropped.
*/
module Waypoints {
  import opened Python
  import opened PyText
  import opened Scene

  /** One `lon,lat[,alt]` token as a waypoint; the latitude is converted first. */
  function TokenWaypoint(token: string, py: Builtins): (r: Result<Point>)
    ensures r == Err(IndexError) <==> ',' !in token
    ensures r.Err? ==> r.error == IndexError || r.error == ValueError
  {
    var parts := SplitOn(token, ',');
    if |parts| < 2 then Err(IndexError)
    else
      match py.float(parts[1])
      case None => Err(ValueError)
      case Some(latitude) =>
        match py.float(parts[0])
        case None => Err(ValueError)
        case Some(longitude) => Ok(Point(latitude, longitude))
  }

  /** The waypoints of a list of tokens, in order; the first failing token raises. */
  function TokensWaypoints(tokens: seq<string>, py: Builtins): Result<seq<Point>>
  {
    if tokens == [] then Ok([])
    else
      match TokensWaypoints(tokens[..|tokens| - 1], py)
      case Err(e) => Err(e)
      case Ok(ps) =>
        match TokenWaypoint(tokens[|tokens| - 1], py)
        case Err(e) => Err(e)
        case Ok(p) => Ok(ps + [p])
  }

  /** `element.text.strip().split()`; an element without text has `None` as its text, which has no `strip`. */
  function ElementTokens(text: Option<string>): Result<seq<string>>
  {
    match text
    case None => Err(AttributeError)
    case Some(t) => Ok(SplitWhitespace(Strip(t)))
  }

  /** The waypoints of one element's tokens. */
  function ElementWaypoints(text: Option<string>, py: Builtins): Result<seq<Point>>
  {
    match ElementTokens(text)
    case Err(e) => Err(e)
    case Ok(tokens) => TokensWaypoints(tokens, py)
  }

  /** The waypoints of the `<coordinates>` element texts, in document order; the first failure raises. */
  function Coordinates(texts: seq<Option<string>>, py: Builtins): (r: Result<seq<Point>>)
    ensures |texts| > 0 && texts[|texts| - 1].None? ==> r.Err?
  {
    if texts == [] then Ok([])
    else
      match Coordinates(texts[..|texts| - 1], py)
      case Err(e) => Err(e)
      case Ok(ps) =>
        match ElementWaypoints(texts[|texts| - 1], py)
        case Err(e) => Err(e)
        case Ok(qs) => Ok(ps + qs)
  }

  /** Once a prefix of the tokens fails, the whole list fails with the same exception. */
  lemma {:induction false} TokensPrefixFails(tokens: seq<string>, j: nat, e: PyError, py: Builtins)
    requires j <= |tokens|
    requires TokensWaypoints(tokens[..j], py) == Err(e)
    ensures TokensWaypoints(tokens, py) == Err(e)
    decreases |tokens| - j
  {
    if j < |tokens| {
      assert tokens[..j + 1][..j] == tokens[..j];
      TokensPrefixFails(tokens, j + 1, e, py);
    } else {
      assert tokens[..j] == tokens;
    }
  }

  /** Once a prefix of the elements fails, the whole document fails with the same exception. */
  lemma {:induction false} CoordinatesPrefixFails(texts: seq<Option<string>>, i: nat, e: PyError, py: Builtins)
    requires i <= |texts|
    requires Coordinates(texts[..i], py) == Err(e)
    ensures Coordinates(texts, py) == Err(e)
    decreases |texts| - i
  {
    if i < |texts| {
      assert texts[..i + 1][..i] == texts[..i];
      CoordinatesPrefixFails(texts, i + 1, e, py);
    } else {
      assert texts[..i] == texts;
    }
  }

  /** A prefix one element longer is the shorter prefix followed by that element. */
  lemma TakeOneMore<T>(xs: seq<T>, i: nat)
    requires i < |xs|
    ensures xs[..i + 1] == xs[..i] + [xs[i]]
  {
  }

  /** One more token: the list fails with the first failure, else gains the token's waypoint. */
  lemma TokensSnoc(init: seq<string>, token: string, py: Builtins)
    ensures TokensWaypoints(init, py).Err? ==> TokensWaypoints(init + [token], py) == TokensWaypoints(init, py)
    ensures TokensWaypoints(init, py).Ok? && TokenWaypoint(token, py).Err? ==>
      TokensWaypoints(init + [token], py) == Err(TokenWaypoint(token, py).error)
    ensures TokensWaypoints(init, py).Ok? && TokenWaypoint(token, py).Ok? ==>
      TokensWaypoints(init + [token], py) == Ok(TokensWaypoints(init, py).value + [TokenWaypoint(token, py).value])
  {
    var tokens := init + [token];
    assert tokens[..|tokens| - 1] == init;
  }

  /** An element failing after the elements before it loaded makes the longer list fail with its exception. */
  lemma CoordinatesSnocFails(init: seq<Option<string>>, text: Option<string>, e: PyError, py: Builtins)
    requires Coordinates(init, py).Ok?
    requires ElementWaypoints(text, py) == Err(e)
    ensures Coordinates(init + [text], py) == Err(e)
  {
    var texts := init + [text];
    assert texts[..|texts| - 1] == init;
  }

  /** A token failing after all tokens before it converted makes the list fail with its exception. */
  lemma TokenFailsInList(tokens: seq<string>, j: nat, e: PyError, py: Builtins)
    requires j < |tokens|
    requires TokensWaypoints(tokens[..j], py).Ok?
    requires TokenWaypoint(tokens[j], py) == Err(e)
    ensures TokensWaypoints(tokens, py) == Err(e)
  {
    TakeOneMore(tokens, j);
    TokensSnoc(tokens[..j], tokens[j], py);
    TokensPrefixFails(tokens, j + 1, e, py);
  }

  /** A token converting after all tokens before it converted extends the list by its waypoint. */
  lemma TokenConverts(tokens: seq<string>, j: nat, ps: seq<Point>, p: Point, py: Builtins)
    requires j < |tokens|
    requires TokensWaypoints(tokens[..j], py) == Ok(ps)
    requires TokenWaypoint(tokens[j], py) == Ok(p)
    ensures TokensWaypoints(tokens[..j + 1], py) == Ok(ps + [p])
  {
    TakeOneMore(tokens, j);
    TokensSnoc(tokens[..j], tokens[j], py);
  }

  /** The waypoints of one more element follow those of the elements before it. */
  lemma CoordinatesSnoc(init: seq<Option<string>>, text: Option<string>, ps: seq<Point>, qs: seq<Point>, py: Builtins)
    requires Coordinates(init, py) == Ok(ps)
    requires ElementWaypoints(text, py) == Ok(qs)
    ensures Coordinates(init + [text], py) == Ok(ps + qs)
  {
    var texts := init + [text];
    assert texts[..|texts| - 1] == init;
  }

  /** An element loading after all elements before it loaded extends the waypoints by its own. */
  lemma ElementLoads(texts: seq<Option<string>>, i: nat, ps: seq<Point>, qs: seq<Point>, py: Builtins)
    requires i < |texts|
    requires Coordinates(texts[..i], py) == Ok(ps)
    requires ElementWaypoints(texts[i], py) == Ok(qs)
    ensures Coordinates(texts[..i + 1], py) == Ok(ps + qs)
  {
    TakeOneMore(texts, i);
    CoordinatesSnoc(texts[..i], texts[i], ps, qs, py);
  }

  /** An element failing after all elements before it loaded makes the document fail with its exception. */
  lemma ElementFails(texts: seq<Option<string>>, i: nat, e: PyError, py: Builtins)
    requires i < |texts|
    requires Coordinates(texts[..i], py).Ok?
    requires ElementWaypoints(texts[i], py) == Err(e)
    ensures Coordinates(texts, py) == Err(e)
  {
    TakeOneMore(texts, i);
    CoordinatesSnocFails(texts[..i], texts[i], e, py);
    CoordinatesPrefixFails(texts, i + 1, e, py);
  }

  /** The inner loop of the loader: convert one element's tokens in order, stopping at the first that raises. */
  method ConvertTokens(coords: seq<string>, py: Builtins) returns (r: Result<seq<Point>>)
    ensures r == TokensWaypoints(coords, py)
  {
    var coordinates: seq<Point> := [];
    var j := 0;
    while j < |coords|
      invariant 0 <= j <= |coords|
      invariant TokensWaypoints(coords[..j], py) == Ok(coordinates)
    {
      var parts := SplitOn(coords[j], ',');
      if |parts| < 2 {
        TokenFailsInList(coords, j, IndexError, py);
        return Err(IndexError);
      }
      var latitude := py.float(parts[1]);
      if latitude.None? {
        TokenFailsInList(coords, j, ValueError, py);
        return Err(ValueError);
      }
      var longitude := py.float(parts[0]);
      if longitude.None? {
        TokenFailsInList(coords, j, ValueError, py);
        return Err(ValueError);
      }
      var p := Point(latitude.value, longitude.value);
      TokenConverts(coords, j, coordinates, p, py);
      coordinates := coordinates + [p];
      j := j + 1;
    }
    assert coords[..j] == coords;
    r := Ok(coordinates);
  }

  /** The loader's loop over the `<coordinates>` elements, in document order. */
  method ExtractCoordinates(texts: seq<Option<string>>, py: Builtins) returns (r: Result<seq<Point>>)
    ensures r == Coordinates(texts, py)
  {
    var coordinates: seq<Point> := [];
    var i := 0;
    while i < |texts|
      invariant 0 <= i <= |texts|
      invariant Coordinates(texts[..i], py) == Ok(coordinates)
    {
      if texts[i].None? {
        ElementFails(texts, i, AttributeError, py);
        return Err(AttributeError);
      }
      var coords := SplitWhitespace(Strip(texts[i].value));
      var converted := ConvertTokens(coords, py);
      if converted.Err? {
        ElementFails(texts, i, converted.error, py);
        return Err(converted.error);
      }
      ElementLoads(texts, i, coordinates, converted.value, py);
      coordinates := coordinates + converted.value;
      i := i + 1;
    }
    assert texts[..i] == texts;
    r := Ok(coordinates);
  }

  /** The tokens of all elements, in document order. */
  function AllTokens(texts: seq<Option<string>>): seq<string>
    requires forall i :: 0 <= i < |texts| ==> texts[i].Some?
  {
    if texts == [] then []
    else AllTokens(texts[..|texts| - 1]) + SplitWhitespace(Strip(texts[|texts| - 1].value))
  }

  /** A token list converts exactly when every token does, giving one waypoint per token in order. */
  lemma {:induction false} TokensPointwise(tokens: seq<string>, py: Builtins)
    ensures TokensWaypoints(tokens, py).Ok? <==> forall k :: 0 <= k < |tokens| ==> TokenWaypoint(tokens[k], py).Ok?
    ensures TokensWaypoints(tokens, py).Ok? ==>
      |TokensWaypoints(tokens, py).value| == |tokens| &&
      forall k :: 0 <= k < |tokens| ==> TokenWaypoint(tokens[k], py) == Ok(TokensWaypoints(tokens, py).value[k])
    decreases |tokens|
  {
    if tokens != [] {
      var init := tokens[..|tokens| - 1];
      TokensPointwise(init, py);
      assert forall k :: 0 <= k < |init| ==> init[k] == tokens[k];
      if TokensWaypoints(tokens, py).Ok? {
        var ps := TokensWaypoints(init, py).value;
        assert TokensWaypoints(tokens, py).value == ps + [TokenWaypoint(tokens[|tokens| - 1], py).value];
      }
    }
  }

  /** Loading one more element: the document loads when the elements before it and its own tokens do, and their waypoints are concatenated. */
  lemma CoordinatesStep(texts: seq<Option<string>>, py: Builtins)
    requires |texts| > 0 && texts[|texts| - 1].Some?
    ensures var init, last := texts[..|texts| - 1], SplitWhitespace(Strip(texts[|texts| - 1].value));
      && (Coordinates(texts, py).Ok? <==> Coordinates(init, py).Ok? && TokensWaypoints(last, py).Ok?)
      && (Coordinates(texts, py).Ok? ==>
            Coordinates(texts, py).value == Coordinates(init, py).value + TokensWaypoints(last, py).value)
  {
  }

  /** Two token lists that each convert pointwise convert pointwise when concatenated. */
  lemma PointwiseConcat(a: seq<string>, b: seq<string>, ps: seq<Point>, qs: seq<Point>, py: Builtins)
    requires |ps| == |a| && |qs| == |b|
    requires forall k :: 0 <= k < |a| ==> TokenWaypoint(a[k], py) == Ok(ps[k])
    requires forall k :: 0 <= k < |b| ==> TokenWaypoint(b[k], py) == Ok(qs[k])
    ensures forall k :: 0 <= k < |a + b| ==> TokenWaypoint((a + b)[k], py) == Ok((ps + qs)[k])
  {
    forall k | 0 <= k < |a + b|
      ensures TokenWaypoint((a + b)[k], py) == Ok((ps + qs)[k])
    {
      if k < |a| {
        assert (a + b)[k] == a[k] && (ps + qs)[k] == ps[k];
      } else {
        assert (a + b)[k] == b[k - |a|] && (ps + qs)[k] == qs[k - |a|];
      }
    }
  }

  /** A concatenation of token lists converts pointwise exactly when both parts do. */
  lemma OkConcat(a: seq<string>, b: seq<string>, py: Builtins)
    ensures (forall k :: 0 <= k < |a + b| ==> TokenWaypoint((a + b)[k], py).Ok?) <==>
      (forall k :: 0 <= k < |a| ==> TokenWaypoint(a[k], py).Ok?) && (forall k :: 0 <= k < |b| ==> TokenWaypoint(b[k], py).Ok?)
  {
    assert forall k :: 0 <= k < |a| ==> (a + b)[k] == a[k];
    assert forall k :: 0 <= k < |b| ==> (a + b)[|a| + k] == b[k];
  }

  /**
    With every element carrying text, the document loads exactly when every
    token converts, and then yields one waypoint per token, in document
    order, each the token's (latitude, longitude).
  */
  lemma {:induction false} CoordinatesPointwise(texts: seq<Option<string>>, py: Builtins)
    requires forall i :: 0 <= i < |texts| ==> texts[i].Some?
    ensures Coordinates(texts, py).Ok? <==>
      forall k :: 0 <= k < |AllTokens(texts)| ==> TokenWaypoint(AllTokens(texts)[k], py).Ok?
    ensures Coordinates(texts, py).Ok? ==>
      |Coordinates(texts, py).value| == |AllTokens(texts)| &&
      forall k :: 0 <= k < |AllTokens(texts)| ==> TokenWaypoint(AllTokens(texts)[k], py) == Ok(Coordinates(texts, py).value[k])
    decreases |texts|
  {
    if texts != [] {
      var init := texts[..|texts| - 1];
      var last := SplitWhitespace(Strip(texts[|texts| - 1].value));
      CoordinatesPointwise(init, py);
      TokensPointwise(last, py);
      CoordinatesStep(texts, py);
      assert AllTokens(texts) == AllTokens(init) + last;
      OkConcat(AllTokens(init), last, py);
      if Coordinates(texts, py).Ok? {
        PointwiseConcat(AllTokens(init), last, Coordinates(init, py).value, TokensWaypoints(last, py).value, py);
      }
    }
  }

  /**
    A document loads only if every `<coordinates>` element has text: an
    element without text makes loading raise (AttributeError, unless an
    earlier element already raised).
  */
  lemma {:induction false} LoadNeedsText(texts: seq<Option<string>>, py: Builtins)
    ensures Coordinates(texts, py).Ok? ==> forall i :: 0 <= i < |texts| ==> texts[i].Some?
    decreases |texts|
  {
    if texts != [] && Coordinates(texts, py).Ok? {
      var init := texts[..|texts| - 1];
      LoadedStep(texts, py);
      LoadNeedsText(init, py);
      forall i | 0 <= i < |texts|
        ensures texts[i].Some?
      {
        if i < |init| {
          assert init[i] == texts[i];
        }
      }
    }
  }

  /** A document that loads has a loading prefix and a last element with text. */
  lemma LoadedStep(texts: seq<Option<string>>, py: Builtins)
    requires texts != [] && Coordinates(texts, py).Ok?
    ensures Coordinates(texts[..|texts| - 1], py).Ok? && texts[|texts| - 1].Some?
  {
  }

  /** A token without a comma has no latitude part: indexing it raises IndexError. */
  lemma ShortTokenRaises(token: string, py: Builtins)
    requires ',' !in token
    ensures TokenWaypoint(token, py) == Err(IndexError)
  {
  }

  /** Whatever follows the latitude (an altitude, or more) does not change the waypoint. */
  lemma {:induction false} ExtraPartsIgnored(parts: seq<string>, py: Builtins)
    requires |parts| >= 2
    requires forall k :: 0 <= k < |parts| ==> ',' !in parts[k]
    ensures TokenWaypoint(Join(parts, ','), py) == TokenWaypoint(Join(parts[..2], ','), py)
  {
    SplitOnJoin(parts, ',');
    SplitOnJoin(parts[..2], ',');
  }

  /**
    A token lists the longitude first and the latitude second, and the
    waypoint stores them the other way round: `lon,lat` becomes the point
    (lat, lon); a latitude `float()` rejects raises before the longitude
    is looked at.
  */
  lemma TokenSwapsOrder(lonText: string, latText: string, py: Builtins)
    requires ',' !in lonText && ',' !in latText
    ensures py.float(latText).None? ==> TokenWaypoint(lonText + "," + latText, py) == Err(ValueError)
    ensures py.float(latText).Some? && py.float(lonText).None? ==>
      TokenWaypoint(lonText + "," + latText, py) == Err(ValueError)
    ensures py.float(latText).Some? && py.float(lonText).Some? ==>
      TokenWaypoint(lonText + "," + latText, py) == Ok(Point(py.float(latText).value, py.float(lonText).value))
  {
    var parts := [lonText, latText];
    assert Join(parts, ',') == lonText + "," + latText by {
      assert Join(parts[1..], ',') == latText;
    }
    SplitOnJoin(parts, ',');
  }

  /** A document without `<coordinates>` elements loads as no waypoints rather than failing. */
  lemma NoElementsNoWaypoints(py: Builtins)
    ensures Coordinates([], py) == Ok([])
  {
  }
}
