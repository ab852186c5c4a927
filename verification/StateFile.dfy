/** The lists of the oracle's state file: ids in the order of their insertion, the last 5000 of
    them saved (contracts/scripts/oracle_listener.js:172-190). */
module StateFile {
  import opened Types

  const KEEP: nat := 5000

  function LastOf<T>(s: seq<T>, n: nat): seq<T> {
    if |s| <= n then s else s[|s| - n..]
  }

  function Insert(s: seq<Text>, id: Text): seq<Text> {
    if id in s then s else s + [id]
  }
}
