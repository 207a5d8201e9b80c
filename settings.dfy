/** The backend settings (backend/app/core/config.py): the CORS origin list
    derived from `CORS_ORIGINS` and the validators of `SECRET_KEY` and
    `DATABASE_URL`.  A setting is read from the environment or the `.env`
    file; `None` stands for a setting given by neither. */
module Settings {
  import opened Common
  import opened Text

  /** The default `CORS_ORIGINS`, written piece by piece. */
  const DefaultCorsOrigins: string :=
    "http://localhost:8080" + "," + "http://127.0.0.1:8080" + "," + "http://localhost:3000" + "," + "http://127.0.0.1:3000"
  const DefaultDatabaseUrl: string := "sqlite:///./printportal.db"
  const SecretKeyTooShort := "SECRET_KEY must be at least 32 characters long"
  const DatabaseUrlRequired := "DATABASE_URL is required"
  /** pydantic's own messages for a missing field and for `min_length`. */
  const FieldRequired := "Field required"
  const StringTooShort := "String should have at least 32 characters"

  /** A string that `strip()` leaves as it is. */
  predicate Stripped(s: string)
  {
    s == [] || (!IsSpace(s[0]) && !IsSpace(s[|s| - 1]))
  }

  /** The stripped pieces, with the empty ones dropped, in order. */
  function CleanPieces(parts: seq<string>): (r: seq<string>)
    ensures |r| <= |parts|
    ensures forall k :: 0 <= k < |r| ==> r[k] != [] && Stripped(r[k])
    ensures forall x :: x in r <==> x != [] && exists p :: p in parts && Strip(p) == x
    decreases |parts|
  {
    if |parts| == 0 then []
    else
      var rest := CleanPieces(parts[1..]);
      CleanPiecesStep(parts, rest);
      if Strip(parts[0]) != [] then [Strip(parts[0])] + rest else rest
  }

  /** The pieces of `parts` are those of its first element and those of the
      rest. */
  lemma CleanPiecesStep(parts: seq<string>, rest: seq<string>)
    requires |parts| > 0
    requires forall k :: 0 <= k < |rest| ==> rest[k] != [] && Stripped(rest[k])
    requires forall x :: x in rest <==> x != [] && exists p :: p in parts[1..] && Strip(p) == x
    ensures var r := if Strip(parts[0]) != [] then [Strip(parts[0])] + rest else rest;
      forall k :: 0 <= k < |r| ==> r[k] != [] && Stripped(r[k])
    ensures var r := if Strip(parts[0]) != [] then [Strip(parts[0])] + rest else rest;
      forall x :: x in r <==> x != [] && exists p :: p in parts && Strip(p) == x
  {
    var r := if Strip(parts[0]) != [] then [Strip(parts[0])] + rest else rest;
    forall k | 0 <= k < |r| ensures r[k] != [] && Stripped(r[k]) {
      if Strip(parts[0]) != [] && k > 0 {
        assert r[k] == rest[k - 1];
      }
    }
    forall x ensures x in r ==> x != [] && exists p :: p in parts && Strip(p) == x {
      if x in r {
        if Strip(parts[0]) != [] && x == Strip(parts[0]) {
          assert parts[0] in parts;
        } else {
          assert x in rest;
          var p :| p in parts[1..] && Strip(p) == x;
          assert p in parts;
        }
      }
    }
    forall x | x != [] && exists p :: p in parts && Strip(p) == x ensures x in r {
      var p :| p in parts && Strip(p) == x;
      var i :| 0 <= i < |parts| && parts[i] == p;
      if i > 0 {
        assert parts[1..][i - 1] == p;
      }
    }
  }

  /** `cors_origins_list`: `CORS_ORIGINS` split on commas, each piece
      stripped, empty pieces dropped. */
  function CorsOriginsList(origins: string): (r: seq<string>)
    ensures forall k :: 0 <= k < |r| ==> r[k] != [] && Stripped(r[k]) && ',' !in r[k]
    ensures |r| <= |Split(origins, ',')|
  {
    var parts := Split(origins, ',');
    CleanPiecesAvoid(parts, ',');
    CleanPieces(parts)
  }

  /** A character absent from every piece is absent from the clean ones. */
  lemma CleanPiecesAvoid(parts: seq<string>, c: char)
    requires forall k :: 0 <= k < |parts| ==> c !in parts[k]
    ensures forall k :: 0 <= k < |CleanPieces(parts)| ==> c !in CleanPieces(parts)[k]
  {
    var r := CleanPieces(parts);
    forall k | 0 <= k < |r| ensures c !in r[k] {
      assert r[k] in r;
      var p :| p in parts && Strip(p) == r[k];
      StripIsInside(p);
    }
  }

  /** What `strip()` returns is a piece of its argument. */
  lemma StripIsInside(p: string)
    ensures forall c :: c in Strip(p) ==> c in p
  {
    var l := TrimLeft(p);
    var r := TrimRight(l);
    StripIsSlice(p, l, r);
    SliceInside(p, |p| - |l|, |p| - |l| + |r|);
    assert Strip(p) == r;
  }

  lemma SliceInside(s: string, i: nat, j: nat)
    requires i <= j <= |s|
    ensures forall c :: c in s[i..j] ==> c in s
  {
    forall c | c in s[i..j] ensures c in s {
      var k :| 0 <= k < j - i && s[i..j][k] == c;
      assert s[i + k] == c;
    }
  }

  /** A string without surrounding whitespace is its own strip. */
  lemma StripOfStripped(s: string)
    requires Stripped(s)
    ensures Strip(s) == s
  {
    var i, j :| 0 <= i <= j <= |s| && Strip(s) == s[i..j] && AllSpace(s[..i]) && AllSpace(s[j..]);
    if i > 0 {
      assert s[..i][0] == s[0];
    }
    if j < |s| {
      assert s[j..][|s| - 1 - j] == s[|s| - 1];
    }
  }

  /** Splitting a join of separator-free parts gives the parts back. */
  lemma {:induction false} SplitJoin(parts: seq<string>, sep: char)
    requires |parts| >= 1
    requires forall k :: 0 <= k < |parts| ==> sep !in parts[k]
    ensures Split(Join(parts, sep), sep) == parts
    decreases |parts|
  {
    if |parts| == 1 {
      SplitNoSeparator(parts[0], sep);
    } else {
      SplitJoin(parts[1..], sep);
      SplitAtFirst(parts[0], sep, Join(parts[1..], sep));
      assert parts == [parts[0]] + parts[1..];
    }
  }

  /** Nothing is lost from a list of non-empty, stripped pieces. */
  lemma {:induction false} CleanPiecesOfClean(parts: seq<string>)
    requires forall k :: 0 <= k < |parts| ==> parts[k] != [] && Stripped(parts[k])
    ensures CleanPieces(parts) == parts
    decreases |parts|
  {
    if |parts| > 0 {
      StripOfStripped(parts[0]);
      CleanPiecesOfClean(parts[1..]);
      assert parts == [parts[0]] + parts[1..];
    }
  }

  /** A comma-joined list of clean origins is read back exactly. */
  lemma CorsRoundTrip(origins: seq<string>)
    requires |origins| >= 1
    requires forall k :: 0 <= k < |origins| ==> origins[k] != [] && Stripped(origins[k]) && ',' !in origins[k]
    ensures CorsOriginsList(Join(origins, ',')) == origins
  {
    SplitJoin(origins, ',');
    CleanPiecesOfClean(origins);
  }

  /** The default allows exactly the four local development origins. */
  lemma DefaultCorsOriginsList()
    ensures CorsOriginsList(DefaultCorsOrigins) ==
            ["http://localhost:8080", "http://127.0.0.1:8080", "http://localhost:3000", "http://127.0.0.1:3000"]
  {
    var o := ["http://localhost:8080", "http://127.0.0.1:8080", "http://localhost:3000", "http://127.0.0.1:3000"];
    assert Join(o[3..], ',') == o[3];
    assert Join(o[2..], ',') == o[2] + [','] + o[3];
    assert Join(o[1..], ',') == o[1] + [','] + o[2] + [','] + o[3];
    assert Join(o, ',') == DefaultCorsOrigins;
    CorsRoundTrip(o);
  }

  /** `validate_secret_key`: empty or shorter than 32 characters is refused;
      anything else is returned unchanged. */
  function ValidateSecretKey(v: string): (r: Result<string, string>)
    ensures r.Ok? <==> |v| >= 32
    ensures r.Ok? ==> r.value == v
    ensures r.Err? ==> r.error == SecretKeyTooShort
  {
    if |v| == 0 || |v| < 32 then Err(SecretKeyTooShort) else Ok(v)
  }

  /** The `SECRET_KEY` field: required, `min_length=32` checked by pydantic
      before the validator runs. */
  function SecretKeySetting(v: Option<string>): (r: Result<string, string>)
    ensures v.None? ==> r == Err(FieldRequired)
    ensures v.Some? && |v.value| < 32 ==> r == Err(StringTooShort)
    ensures r.Ok? <==> v.Some? && |v.value| >= 32
    ensures r.Ok? ==> r.value == v.value
  {
    match v
    case None => Err(FieldRequired)
    case Some(s) => if |s| < 32 then Err(StringTooShort) else ValidateSecretKey(s)
  }

  /** `validate_database_url`: an empty URL is refused. */
  function ValidateDatabaseUrl(v: string): (r: Result<string, string>)
    ensures r.Ok? <==> v != []
    ensures r.Ok? ==> r.value == v
    ensures r.Err? ==> r.error == DatabaseUrlRequired
  {
    if |v| == 0 then Err(DatabaseUrlRequired) else Ok(v)
  }

  /** The `DATABASE_URL` field: the SQLite default when unset, which passes
      the validator like any set value. */
  function DatabaseUrlSetting(v: Option<string>): (r: Result<string, string>)
    ensures v.None? ==> r == Ok(DefaultDatabaseUrl)
    ensures v.Some? ==> r == ValidateDatabaseUrl(v.value)
    ensures r.Ok? ==> r.value != []
  {
    match v
    case None => ValidateDatabaseUrl(DefaultDatabaseUrl)
    case Some(s) => ValidateDatabaseUrl(s)
  }
}
