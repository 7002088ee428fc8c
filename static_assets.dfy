/** Static asset helpers (`app.js`): the Content-Type the static handler sets from a file's
    suffix, and the asset path the two asset routes extract from a request path. Reading
    files is outside the model: the files that exist are a parameter. */
module StaticAssets {
  import opened Base

  // ---------------------------------------------------------------------------------------
  // Content types

  /** The `setHeaders` chain: the first test that passes decides; no test passing sets no
      Content-Type. */
  function ContentType(path: string): (r: Option<string>)
    ensures r.Some? ==> exists i :: 0 <= i < |ContentTypes| && EndsWith(path, ContentTypes[i].0)
                                    && r.value == ContentTypes[i].1
  {
    assert ContentTypes[0] == (".js", "application/javascript") && ContentTypes[1] == (".css", "text/css");
    assert ContentTypes[2] == (".ttf", "font/ttf") && ContentTypes[3] == (".otf", "font/ttf");
    assert ContentTypes[4] == (".svg", "image/svg+xml") && ContentTypes[5] == (".png", "image/png");
    assert ContentTypes[6] == (".jpg", "image/jpeg") && ContentTypes[7] == (".jpeg", "image/jpeg");
    assert ContentTypes[8] == (".webp", "image/webp");
    assert ContentTypes[9] == (".woff", "font/woff") && ContentTypes[10] == (".woff2", "font/woff");
    if EndsWith(path, ".js") then Some("application/javascript")
    else if EndsWith(path, ".css") then Some("text/css")
    else if EndsWith(path, ".ttf") || EndsWith(path, ".otf") then Some("font/ttf")
    else if EndsWith(path, ".svg") then Some("image/svg+xml")
    else if EndsWith(path, ".png") then Some("image/png")
    else if EndsWith(path, ".jpg") || EndsWith(path, ".jpeg") then Some("image/jpeg")
    else if EndsWith(path, ".webp") then Some("image/webp")
    else if EndsWith(path, ".woff") || EndsWith(path, ".woff2") then Some("font/woff")
    else None
  }

  /** The mapping as a table of suffixes and their types. */
  const ContentTypes: seq<(string, string)> := [
    (".js", "application/javascript"), (".css", "text/css"),
    (".ttf", "font/ttf"), (".otf", "font/ttf"),
    (".svg", "image/svg+xml"), (".png", "image/png"),
    (".jpg", "image/jpeg"), (".jpeg", "image/jpeg"),
    (".webp", "image/webp"),
    (".woff", "font/woff"), (".woff2", "font/woff")]

  /** A path that ends with `b` does not end with a suffix `a` that differs from the end of
      `b` at some position. */
  lemma EndingsExclude(path: string, a: string, b: string, k: nat)
    requires EndsWith(path, b) && |a| <= |b| && k < |a| && b[|b| - |a| + k] != a[k]
    ensures !EndsWith(path, a)
  {
    assert path[|path| - |b|..][|b| - |a| + k] == path[|path| - |a| + k];
    assert path[|path| - |a|..][k] == path[|path| - |a| + k];
  }

  /** The chain for the first four suffixes of the table (scripts, styles, TrueType and OpenType fonts). */
  lemma ScriptAndFontTypes(path: string, i: nat)
    requires i < 4 && EndsWith(path, ContentTypes[i].0)
    ensures ContentType(path) == Some(ContentTypes[i].1)
    ensures forall j :: 0 <= j < i ==> !EndsWith(path, ContentTypes[j].0)
  {
    if i == 0 {
      assert ContentTypes[0] == (".js", "application/javascript");
    } else if i == 1 {
      assert ContentTypes[1] == (".css", "text/css");
      EndingsExclude(path, ".js", ".css", 0);
    } else if i == 2 {
      assert ContentTypes[2] == (".ttf", "font/ttf");
      EndingsExclude(path, ".js", ".ttf", 0);
      EndingsExclude(path, ".css", ".ttf", 1);
    } else {
      assert ContentTypes[3] == (".otf", "font/ttf");
      EndingsExclude(path, ".js", ".otf", 0);
      EndingsExclude(path, ".css", ".otf", 1);
      EndingsExclude(path, ".ttf", ".otf", 1);
    }
  }

  /** The chain for the image suffixes `.svg`, `.png` and `.jpg`. */
  lemma ImageTypes(path: string, i: nat)
    requires 4 <= i < 7 && EndsWith(path, ContentTypes[i].0)
    ensures ContentType(path) == Some(ContentTypes[i].1)
    ensures forall j :: 0 <= j < i ==> !EndsWith(path, ContentTypes[j].0)
  {
    if i == 4 {
      assert ContentTypes[4] == (".svg", "image/svg+xml");
      EndingsExclude(path, ".js", ".svg", 0);
      EndingsExclude(path, ".css", ".svg", 1);
      EndingsExclude(path, ".ttf", ".svg", 1);
      EndingsExclude(path, ".otf", ".svg", 1);
    } else if i == 5 {
      assert ContentTypes[5] == (".png", "image/png");
      EndingsExclude(path, ".js", ".png", 0);
      EndingsExclude(path, ".css", ".png", 1);
      EndingsExclude(path, ".ttf", ".png", 1);
      EndingsExclude(path, ".otf", ".png", 1);
      EndingsExclude(path, ".svg", ".png", 1);
    } else {
      assert ContentTypes[6] == (".jpg", "image/jpeg");
      EndingsExclude(path, ".js", ".jpg", 0);
      EndingsExclude(path, ".css", ".jpg", 1);
      EndingsExclude(path, ".ttf", ".jpg", 1);
      EndingsExclude(path, ".otf", ".jpg", 1);
      EndingsExclude(path, ".svg", ".jpg", 1);
      EndingsExclude(path, ".png", ".jpg", 1);
    }
  }

  /** The chain for `.jpeg` and `.webp`. */
  lemma JpegAndWebpTypes(path: string, i: nat)
    requires 7 <= i < 9 && EndsWith(path, ContentTypes[i].0)
    ensures ContentType(path) == Some(ContentTypes[i].1)
    ensures forall j :: 0 <= j < i ==> !EndsWith(path, ContentTypes[j].0)
  {
    if i == 7 {
      assert ContentTypes[7] == (".jpeg", "image/jpeg");
      EndingsExclude(path, ".js", ".jpeg", 0);
      EndingsExclude(path, ".css", ".jpeg", 0);
      EndingsExclude(path, ".ttf", ".jpeg", 0);
      EndingsExclude(path, ".otf", ".jpeg", 0);
      EndingsExclude(path, ".svg", ".jpeg", 0);
      EndingsExclude(path, ".png", ".jpeg", 0);
      EndingsExclude(path, ".jpg", ".jpeg", 0);
    } else {
      assert ContentTypes[8] == (".webp", "image/webp");
      EndingsExclude(path, ".js", ".webp", 0);
      EndingsExclude(path, ".css", ".webp", 0);
      EndingsExclude(path, ".ttf", ".webp", 0);
      EndingsExclude(path, ".otf", ".webp", 0);
      EndingsExclude(path, ".svg", ".webp", 0);
      EndingsExclude(path, ".png", ".webp", 0);
      EndingsExclude(path, ".jpg", ".webp", 0);
      EndingsExclude(path, ".jpeg", ".webp", 1);
    }
  }

  /** The chain for `.woff`. */
  lemma WoffType(path: string)
    requires EndsWith(path, ContentTypes[9].0)
    ensures ContentType(path) == Some(ContentTypes[9].1)
    ensures forall j :: 0 <= j < 9 ==> !EndsWith(path, ContentTypes[j].0)
  {
    assert ContentTypes[9] == (".woff", "font/woff");
    EndingsExclude(path, ".js", ".woff", 0);
    EndingsExclude(path, ".css", ".woff", 0);
    EndingsExclude(path, ".ttf", ".woff", 0);
    EndingsExclude(path, ".otf", ".woff", 0);
    EndingsExclude(path, ".svg", ".woff", 0);
    EndingsExclude(path, ".png", ".woff", 0);
    EndingsExclude(path, ".jpg", ".woff", 0);
    EndingsExclude(path, ".jpeg", ".woff", 1);
    EndingsExclude(path, ".webp", ".woff", 2);
  }

  /** A path whose last character differs from the last character of `a` does not end with
      `a`. */
  lemma LastCharExcludes(path: string, a: string)
    requires |path| > 0 && |a| > 0 && path[|path| - 1] != a[|a| - 1]
    ensures !EndsWith(path, a)
  {
    if |a| <= |path| {
      assert path[|path| - |a|..][|a| - 1] == path[|path| - 1];
    }
  }

  /** The chain for `.woff2`, the last test of the chain: no earlier suffix ends with `2`. */
  lemma Woff2Type(path: string)
    requires EndsWith(path, ContentTypes[10].0)
    ensures ContentType(path) == Some(ContentTypes[10].1)
    ensures forall j :: 0 <= j < 10 ==> !EndsWith(path, ContentTypes[j].0)
  {
    assert ContentTypes[10] == (".woff2", "font/woff");
    assert path[|path| - 1] == path[|path| - 6..][5] == '2';
    LastCharExcludes(path, ".js");
    LastCharExcludes(path, ".css");
    LastCharExcludes(path, ".ttf");
    LastCharExcludes(path, ".otf");
    LastCharExcludes(path, ".svg");
    LastCharExcludes(path, ".png");
    LastCharExcludes(path, ".jpg");
    LastCharExcludes(path, ".jpeg");
    LastCharExcludes(path, ".webp");
  }

  /** A path that ends with the i-th suffix of the table gets the i-th type from the chain:
      it fails every earlier test, since every earlier suffix differs from the end of the
      i-th one. */
  lemma ChainPicksEntry(path: string, i: nat)
    requires i < |ContentTypes| && EndsWith(path, ContentTypes[i].0)
    ensures ContentType(path) == Some(ContentTypes[i].1)
    ensures forall j :: 0 <= j < i ==> !EndsWith(path, ContentTypes[j].0)
  {
    if i < 4 {
      ScriptAndFontTypes(path, i);
    } else if i < 7 {
      ImageTypes(path, i);
    } else if i < 9 {
      JpegAndWebpTypes(path, i);
    } else if i == 9 {
      WoffType(path);
    } else {
      Woff2Type(path);
    }
  }

  /** A path that ends with none of the suffixes gets no type from the chain. */
  lemma {:induction false} ChainFindsNothing(path: string)
    requires forall i :: 0 <= i < |ContentTypes| ==> !EndsWith(path, ContentTypes[i].0)
    ensures ContentType(path).None?
  {
    assert ContentTypes[0].0 == ".js" && !EndsWith(path, ContentTypes[0].0);
    assert ContentTypes[1].0 == ".css" && !EndsWith(path, ContentTypes[1].0);
    assert ContentTypes[2].0 == ".ttf" && !EndsWith(path, ContentTypes[2].0);
    assert ContentTypes[3].0 == ".otf" && !EndsWith(path, ContentTypes[3].0);
    assert ContentTypes[4].0 == ".svg" && !EndsWith(path, ContentTypes[4].0);
    assert ContentTypes[5].0 == ".png" && !EndsWith(path, ContentTypes[5].0);
    assert ContentTypes[6].0 == ".jpg" && !EndsWith(path, ContentTypes[6].0);
    assert ContentTypes[7].0 == ".jpeg" && !EndsWith(path, ContentTypes[7].0);
    assert ContentTypes[8].0 == ".webp" && !EndsWith(path, ContentTypes[8].0);
    assert ContentTypes[9].0 == ".woff" && !EndsWith(path, ContentTypes[9].0);
    assert ContentTypes[10].0 == ".woff2" && !EndsWith(path, ContentTypes[10].0);
  }

  /** At most one suffix of the table fits a path, so at most one test of the chain can
      pass and the order of the tests does not matter. */
  lemma AtMostOneSuffix(path: string)
    ensures forall i, j :: 0 <= i < j < |ContentTypes| && EndsWith(path, ContentTypes[j].0) ==>
              !EndsWith(path, ContentTypes[i].0)
  {
    forall j | 0 <= j < |ContentTypes| && EndsWith(path, ContentTypes[j].0)
      ensures forall i :: 0 <= i < j ==> !EndsWith(path, ContentTypes[i].0)
    {
      ChainPicksEntry(path, j);
    }
  }

  /** The chain is the table: a path gets a type exactly when one of the table's suffixes
      fits it, and then it gets that suffix's type. */
  lemma {:induction false} ContentTypeIsTable(path: string)
    ensures ContentType(path).None? <==> forall i :: 0 <= i < |ContentTypes| ==> !EndsWith(path, ContentTypes[i].0)
    ensures forall i :: 0 <= i < |ContentTypes| && EndsWith(path, ContentTypes[i].0) ==>
              ContentType(path) == Some(ContentTypes[i].1)
  {
    forall i | 0 <= i < |ContentTypes| && EndsWith(path, ContentTypes[i].0)
      ensures ContentType(path) == Some(ContentTypes[i].1)
    {
      ChainPicksEntry(path, i);
    }
    if forall i :: 0 <= i < |ContentTypes| ==> !EndsWith(path, ContentTypes[i].0) {
      ChainFindsNothing(path);
    }
  }

  // ---------------------------------------------------------------------------------------
  // Asset paths

  /** The two client routes whose pages request `/{route}/assets/...`. */
  const RoutesWithAssets: seq<string> := ["contact", "admin"]

  /** `req.path.replace("/" + route + "/assets/", "")`. */
  function RouteAssetPath(route: string, requestPath: string): (r: string)
    ensures !Includes(requestPath, "/" + route + "/assets/") ==> r == requestPath
    ensures |r| <= |requestPath|
  {
    ReplaceFirst(requestPath, "/" + route + "/assets/", "")
  }

  /** A request `/{route}/assets/X` serves the asset X: the prefix is removed once, so a
      prefix repeated inside X is kept. */
  lemma {:induction false} RouteAssetPathStripsPrefix(route: string, x: string)
    ensures RouteAssetPath(route, "/" + route + "/assets/" + x) == x
  {
    var prefix := "/" + route + "/assets/";
    var s := prefix + x;
    assert OccursAt(s, prefix, 0) by {
      assert s[0..|prefix|] == prefix;
    }
    assert IndexOf(s, prefix) == Some(0);
    assert s[|prefix|..] == x;
  }

  predicate IsSlash(c: char)
  {
    c == '/'
  }

  /** A path segment: no '/' inside. */
  predicate Segment(s: string)
  {
    forall i :: 0 <= i < |s| ==> !IsSlash(s[i])
  }

  /** `s.split("/")`. */
  function Split(s: string): (r: seq<string>)
    ensures |r| >= 1
    decreases |s|
  {
    match FindFirst(s, IsSlash)
    case None => [s]
    case Some(k) => [s[..k]] + Split(s[k + 1..])
  }

  /** `parts.join("/")`. */
  function Join(parts: seq<string>): string
  {
    if |parts| == 0 then ""
    else if |parts| == 1 then parts[0]
    else parts[0] + "/" + Join(parts[1..])
  }

  /** Joining the pieces of a split gives back the string. */
  lemma {:induction false} JoinSplit(s: string)
    ensures Join(Split(s)) == s
    decreases |s|
  {
    match FindFirst(s, IsSlash) {
      case None =>
      case Some(k) =>
        JoinSplit(s[k + 1..]);
        assert s == s[..k] + "/" + s[k + 1..];
    }
  }

  /** Every piece of a split is a segment. */
  lemma {:induction false} SplitGivesSegments(s: string)
    ensures forall i :: 0 <= i < |Split(s)| ==> Segment(Split(s)[i])
    decreases |s|
  {
    match FindFirst(s, IsSlash) {
      case None =>
      case Some(k) =>
        SplitGivesSegments(s[k + 1..]);
    }
  }

  /** Splitting a segment followed by "/" peels that segment off. */
  lemma {:induction false} SplitAfterSegment(a: string, rest: string)
    requires Segment(a)
    ensures Split(a + "/" + rest) == [a] + Split(rest)
  {
    var s := a + "/" + rest;
    assert IsSlash(s[|a|]);
    assert forall j :: 0 <= j < |a| ==> s[j] == a[j];
    var k := FindFirst(s, IsSlash);
    assert k == Some(|a|);
    assert s[..|a|] == a && s[|a| + 1..] == rest;
  }

  /** `"assets"`'s first position among the parts, -1 when absent (`indexOf`). */
  function IndexOfAssets(parts: seq<string>): int
  {
    match FindFirst(parts, (p: string) => p == "assets")
    case None => -1
    case Some(i) => i
  }

  /** `pathParts.slice(pathParts.indexOf("assets") + 1).join("/")`. */
  function MultiLevelAssetPath(requestPath: string): (r: string)
    ensures IndexOfAssets(Split(requestPath)) == -1 ==> r == requestPath
  {
    var parts := Split(requestPath);
    JoinSplit(requestPath);
    Join(parts[IndexOfAssets(parts) + 1..])
  }

  /** How `/A/B/assets/X` splits. */
  lemma {:induction false} SplitAssetsPath(a: string, b: string, x: string)
    requires Segment(a) && Segment(b)
    ensures Split("/" + a + "/" + b + "/assets/" + x) == [""] + ([a] + ([b] + (["assets"] + Split(x))))
  {
    var s3 := "assets" + "/" + x;
    var s2 := b + "/" + s3;
    var s1 := a + "/" + s2;
    assert "/" + a + "/" + b + "/assets/" + x == "" + "/" + s1;
    SplitAfterSegment("", s1);
    SplitAfterSegment(a, s2);
    SplitAfterSegment(b, s3);
    AssetsIsSegment();
    SplitAfterSegment("assets", x);
    calc {
      Split("" + "/" + s1);
      [""] + Split(s1);
      [""] + ([a] + Split(s2));
      [""] + ([a] + ([b] + Split(s3)));
      [""] + ([a] + ([b] + (["assets"] + Split(x))));
    }
  }

  lemma AssetsIsSegment()
    ensures Segment("assets")
  {
    var s := "assets";
    assert s[0] == 'a' && s[1] == 's' && s[2] == 's' && s[3] == 'e' && s[4] == 't' && s[5] == 's';
  }

  /** A request `/A/B/assets/X`, where neither A nor B is "assets", serves the asset X. */
  lemma {:induction false} MultiLevelAssetPathAfterAssets(a: string, b: string, x: string)
    requires Segment(a) && Segment(b) && a != "assets" && b != "assets"
    ensures MultiLevelAssetPath("/" + a + "/" + b + "/assets/" + x) == x
  {
    var parts := Split("/" + a + "/" + b + "/assets/" + x);
    SplitAssetsPath(a, b, x);
    assert parts[0] != "assets" && parts[1] != "assets" && parts[2] != "assets" && parts[3] == "assets";
    assert IndexOfAssets(parts) == 3;
    assert parts[4..] == Split(x) by {
      assert parts[1..] == [a] + ([b] + (["assets"] + Split(x)));
      assert parts[2..] == [b] + (["assets"] + Split(x));
      assert parts[3..] == ["assets"] + Split(x);
    }
    JoinSplit(x);
  }

  datatype AssetResponse = AssetFile(name: string) | AssetNotFound(text: string)   // 200 / 404

  /** `res.sendFile` of an asset under `public/build/assets`: the file, or 404 when there is
      no such file. */
  function ServeAsset(files: set<string>, assetPath: string): (r: AssetResponse)
    ensures r.AssetFile? <==> assetPath in files
    ensures r.AssetFile? ==> r.name == assetPath
    ensures r.AssetNotFound? ==> r.text == "Asset not found"
  {
    if assetPath in files then AssetFile(assetPath) else AssetNotFound("Asset not found")
  }
}
