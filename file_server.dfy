/**
 * The file-backed data service: a directory of `<name>.json` files behind
 * `GET /api/data/:filename` and `POST /api/data/:filename`. The directory is a map from file
 * name to file text. Reading parses the file; a missing or unparsable file reads as `[]`.
 * Writing replaces the whole file by the posted value, printed with two-space indentation.
 */
module FileServer {
  import opened Wrappers
  import opened Json

  /** The files created, each holding `[]`, when the storage directory is missing at start-up. */
  const SeedFiles: seq<string> := ["heroes.json", "warHeroes.json", "places.json"]

  /** `req.params.filename + '.json'`. */
  function FileName(name: string): string {
    name + ".json"
  }

  /** Two names never share a file: the suffix is cancelled. */
  lemma FileNameInjective(a: string, b: string)
    requires FileName(a) == FileName(b)
    ensures a == b
  {
    assert |a| == |b|;
    assert FileName(a)[..|a|] == a;
    assert FileName(b)[..|b|] == b;
  }

  /** `files` after `[]` has been written to each of `names` in turn. */
  function WithEmptyFiles(files: map<string, string>, names: seq<string>): map<string, string> {
    if |names| == 0 then files
    else WithEmptyFiles(files, names[..|names| - 1])[names[|names| - 1] := "[]"]
  }

  /** The written files hold `[]`; every other file is as it was. */
  lemma {:induction false} WithEmptyFilesAt(files: map<string, string>, names: seq<string>, f: string)
    ensures f in names ==> f in WithEmptyFiles(files, names) && WithEmptyFiles(files, names)[f] == "[]"
    ensures f !in names ==> Item(WithEmptyFiles(files, names), f) == Item(files, f)
  {
    if |names| > 0 {
      var init := names[..|names| - 1];
      assert names == init + [names[|names| - 1]];
      WithEmptyFilesAt(files, init, f);
    }
  }

  /** The reply to `GET /api/data/<name>`: the parsed file, or `[]` when it is missing or does not parse. */
  function Served(files: map<string, string>, name: string): Json {
    match Item(files, FileName(name))
    case None => JArray([])
    case Some(text) =>
      match Parse(text)
      case Some(v) => v
      case None => JArray([])
  }

  /** `JSON.stringify(data, null, 2)`, the text a POST stores. */
  function Saved(data: Json): string {
    Stringify(data, Indented)
  }

  /** `{ success: true }`. */
  const Success := JObject([Member("success", JBool(true))])

  /** A name with no file reads as the empty array. */
  lemma MissingIsEmpty(files: map<string, string>, name: string)
    requires FileName(name) !in files
    ensures Served(files, name) == JArray([])
  {
  }

  /** A file that does not parse reads as the empty array, whatever it holds. */
  lemma UnparsableIsEmpty(files: map<string, string>, name: string)
    requires FileName(name) in files && Parse(files[FileName(name)]) == None
    ensures Served(files, name) == JArray([])
  {
  }

  /** A file that parses is served as what it parses to. */
  lemma ParsedIsServed(files: map<string, string>, name: string, v: Json)
    requires FileName(name) in files && Parse(files[FileName(name)]) == Some(v)
    ensures Served(files, name) == v
  {
  }

  /** A read after a write of the same name gives back exactly what was posted. */
  lemma PostThenGet(files: map<string, string>, name: string, data: Json)
    ensures Served(files[FileName(name) := Saved(data)], name) == data
  {
    RoundTrip(data, Indented);
  }

  /** A write to one name leaves what every other name reads unchanged. */
  lemma PostLeavesOthers(files: map<string, string>, name: string, data: Json, other: string)
    requires other != name
    ensures Served(files[FileName(name) := Saved(data)], other) == Served(files, other)
  {
    if FileName(other) == FileName(name) {
      FileNameInjective(other, name);
    }
  }

  class DataServer {
    /** The storage directory: file name to file text. */
    var files: map<string, string>

    /**
     * Start-up: if the storage directory is missing it is created and the three seed files
     * are written with `[]`; an existing directory is left exactly as it is.
     */
    constructor (dirExists: bool, existing: map<string, string>)
      ensures files == if dirExists then existing else WithEmptyFiles(map[], SeedFiles)
    {
      files := if dirExists then existing else map[];
      new;
      if !dirExists {
        for i := 0 to |SeedFiles|
          invariant files == WithEmptyFiles(map[], SeedFiles[..i])
        {
          assert SeedFiles[..i + 1][..i] == SeedFiles[..i];
          files := files[SeedFiles[i] := "[]"];
        }
        assert SeedFiles[..|SeedFiles|] == SeedFiles;
      }
    }

    /** `GET /api/data/:filename`. */
    method Get(name: string) returns (reply: Json)
      ensures reply == Served(files, name)
    {
      var path := FileName(name);
      if path in files {
        var data := files[path];
        var parsed := Parse(data);
        if parsed.Some? {
          reply := parsed.value;
        } else {
          reply := JArray([]);
        }
      } else {
        reply := JArray([]);
      }
    }

    /** `POST /api/data/:filename`: overwrites the file with the whole body and reports success. */
    method Post(name: string, data: Json) returns (reply: Json)
      modifies this
      ensures files == old(files)[FileName(name) := Saved(data)]
      ensures reply == Success
    {
      files := files[FileName(name) := Saved(data)];
      reply := Success;
    }
  }

  /** A freshly created directory holds exactly the three seed files, each reading as `[]`. */
  lemma FreshDirectory(name: string)
    ensures FileName(name) in WithEmptyFiles(map[], SeedFiles) <==> FileName(name) in SeedFiles
    ensures Served(WithEmptyFiles(map[], SeedFiles), name) == JArray([])
  {
    WithEmptyFilesAt(map[], SeedFiles, FileName(name));
    if FileName(name) in SeedFiles {
      assert Parse("[]") == Some(JArray([])) by {
        assert Stringify(JArray([]), Compact) == "[]";
        RoundTrip(JArray([]), Compact);
      }
    }
  }
}
