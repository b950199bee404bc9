/**
 * Station names and their spool keys. Both ingest loops turn the station's
 * display name into the name of its spool file by lowercasing it and replacing
 * every space with an underscore; the file lives at `<temp_dir>/<key>`.
 */
module Station {

  /** ASCII `to_lowercase` of one character. */
  function Lower(c: char): char {
    if 'A' <= c <= 'Z' then (c as int + 32) as char else c
  }

  /** One character of `name.to_lowercase().replace(' ', "_")`. */
  function KeyChar(c: char): char {
    if c == ' ' then '_' else Lower(c)
  }

  /** A name the normalisation leaves as it is: no space and no ASCII capital. */
  predicate IsSpoolKey(key: string) {
    forall i :: 0 <= i < |key| ==> key[i] != ' ' && !('A' <= key[i] <= 'Z')
  }

  /** `name.to_lowercase().replace(' ', "_")`, for ASCII case mapping. */
  function Normalize(name: string): (key: string)
    ensures |key| == |name|
    ensures IsSpoolKey(key)
    ensures forall i :: 0 <= i < |name| && name[i] != ' ' && !('A' <= name[i] <= 'Z') ==> key[i] == name[i]
    ensures forall i :: 0 <= i < |name| && 'A' <= name[i] <= 'Z' ==> key[i] as int == name[i] as int + 32
    ensures forall i :: 0 <= i < |name| && name[i] == ' ' ==> key[i] == '_'
  {
    seq(|name|, i requires 0 <= i < |name| => KeyChar(name[i]))
  }

  /** Normalising a key changes nothing, so normalising twice is normalising once. */
  lemma NormalizeIdempotent(name: string)
    ensures Normalize(Normalize(name)) == Normalize(name)
  {
    NormalizeFixesKeys(Normalize(name));
  }

  /** Exactly the spool keys are left unchanged by the normalisation. */
  lemma NormalizeFixesKeys(key: string)
    ensures Normalize(key) == key <==> IsSpoolKey(key)
  {
    if IsSpoolKey(key) {
      assert forall i :: 0 <= i < |key| ==> Normalize(key)[i] == key[i];
    }
  }
}
