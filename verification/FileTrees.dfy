/** The abstract file system: one map from relative names to files per tree. */
module FileTrees {
  import opened Paths

  newtype byte = x: int | 0 <= x < 256

  datatype Entry = Entry(content: seq<byte>, time: int)

  type Tree = map<Path, Entry>

  /** size_t counters are 64 bits wide and wrap around. */
  const WORD: nat := 0x1_0000_0000_0000_0000

  /** Adding to such a counter. */
  function AddWord(total: nat, size: nat): nat {
    (total + size) % WORD
  }

  /** file_time_type::min(), what last_write_time answers with an error code. */
  const NO_TIME: int := -0x8000_0000_0000_0000

  /** last_write_time(p, err). */
  function TimeOf(t: Tree, p: Path): int {
    if p in t then t[p].time else NO_TIME
  }

  /** file_size(p, err): a missing file reads as static_cast<uintmax_t>(-1). */
  function SizeOf(t: Tree, p: Path): nat {
    if p in t then |t[p].content| else WORD - 1
  }

  /** The two trees hold the same thing, or both nothing, at p. */
  predicate SameAt(a: Tree, b: Tree, p: Path) {
    (p in a <==> p in b) && (p in a ==> a[p] == b[p])
  }

  /** remove(p) on a file. */
  function Without(t: Tree, p: Path): Tree {
    map q | q in t && q != p :: t[q]
  }

  /** remove_all(dir), the files. */
  function WithoutTree(t: Tree, dir: Path): Tree {
    map q | q in t && !AtOrUnder(dir, q) :: t[q]
  }

  /** remove_all(dir), the directories. */
  function WithoutDirs(ds: set<Path>, dir: Path): set<Path> {
    set d | d in ds && !AtOrUnder(dir, d)
  }
}
