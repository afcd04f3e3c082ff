/**
 * The content directory the API routes write to, as a map from file name to
 * the record the file holds. `saveExperience` and `saveSkillCategory` are
 * both a write of one file by name.
 */
module Storage {

  /** Writing the file `name`: it now holds `v`, whether or not it existed, and every other file is kept. */
  function Write<V>(files: map<string, V>, name: string, v: V): (f: map<string, V>)
    ensures f.Keys == files.Keys + {name} && f[name] == v
    ensures forall k :: k in files && k != name ==> f[k] == files[k]
  {
    files[name := v]
  }

  /** A second write of the same file replaces the first. */
  lemma WriteLastWins<V>(files: map<string, V>, name: string, v: V, w: V)
    ensures Write(Write(files, name, v), name, w) == Write(files, name, w)
  {
    assert Write(Write(files, name, v), name, w).Keys == Write(files, name, w).Keys;
  }

  /** Writes of two different files can happen in either order. */
  lemma WritesCommute<V>(files: map<string, V>, a: string, v: V, b: string, w: V)
    requires a != b
    ensures Write(Write(files, a, v), b, w) == Write(Write(files, b, w), a, v)
  {
    assert Write(Write(files, a, v), b, w).Keys == Write(Write(files, b, w), a, v).Keys;
  }
}
