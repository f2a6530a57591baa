/** The working directory and the exception kinds that reach the top-level
    classifier. */
module Files {
  import opened Wrappers

  /** The working directory: each file name (relative to the current
      directory) mapped to its size. */
  type Dir = map<string, nat>

  /** The process environment (`os.environ`). */
  type Env = map<string, string>

  /** One CSV row as `csv.DictReader` yields it: column name to cell. */
  type Row = map<string, string>

  /** Exception classes the top level tells apart; all others are `OtherException`. */
  datatype Exc = RequestException | TimeoutExpired | ConnectionError | OtherException

  /** `os.environ.get(key, "")`. */
  function EnvGet(env: Env, key: string): string {
    if key in env then env[key] else ""
  }

  /** `row.get(key) or default`: a missing or empty cell gives `default`. */
  function Field(row: Row, key: string, default: string): string {
    if key in row && row[key] != "" then row[key] else default
  }

  /** `os.path.exists` for a name relative to the working directory; the empty
      name is `os.path.join(cwd, "")`, the working directory itself. */
  predicate PathExists(d: Dir, name: string) {
    name == "" || name in d
  }

  /** Two directories that differ at most in `name`, and hold no `name`, are equal. */
  lemma SameOffKey(a: Dir, b: Dir, name: string)
    requires name !in a && name !in b && a - {name} == b - {name}
    ensures a == b
  {
    assert forall x :: x in a <==> x in a - {name};
    assert forall x :: x in b <==> x in b - {name};
  }

  /** Directories that agree off `x` and `y` agree off `x`, `y` and `z`. */
  lemma AgreeWider(a: Dir, b: Dir, x: string, y: string, z: string)
    requires a - {x, y} == b - {x, y}
    ensures a - {x, y, z} == b - {x, y, z}
  {
    assert a - {x, y, z} == (a - {x, y}) - {z};
    assert b - {x, y, z} == (b - {x, y}) - {z};
  }

  /** Agreeing off `x` and `y`, then off `z`, is agreeing off all three. */
  lemma AgreeChain(a: Dir, b: Dir, c: Dir, x: string, y: string, z: string)
    requires b - {x, y} == a - {x, y} && c - {z} == b - {z}
    ensures c - {x, y, z} == a - {x, y, z}
  {
    AgreeWider(b, a, x, y, z);
    assert c - {x, y, z} == (c - {z}) - {x, y};
    assert b - {x, y, z} == (b - {z}) - {x, y};
  }

  /** The rows a CSV file holds when the script opens it, or `None` when
      opening or parsing it raises. Only `OSError`, a decoding error or
      `csv.Error` can be raised there, none of them a network exception. */
  type CsvReader = string -> Option<seq<Row>>

  /** `open(name)` plus `csv.DictReader`: a missing or unreadable file
      raises, and the exception is never one of the network kinds. */
  function ReadCsv(csv: CsvReader, name: string, d: Dir): (r: Result<seq<Row>, Exc>)
    ensures r.Ok? <==> name in d && csv(name).Some?
    ensures r.Ok? ==> r.value == csv(name).value
    ensures r.Err? ==> r.error == OtherException
  {
    if name !in d then Err(OtherException)
    else
      match csv(name)
      case Some(rows) => Ok(rows)
      case None => Err(OtherException)
  }

  /** `os.remove(name)`: a missing file raises. */
  function Remove(d: Dir, name: string): (r: Result<Dir, Exc>)
    ensures r.Ok? <==> name in d
    ensures r.Ok? ==> name !in r.value && r.value - {name} == d - {name}
  {
    if name in d then Ok(d - {name}) else Err(OtherException)
  }
}
