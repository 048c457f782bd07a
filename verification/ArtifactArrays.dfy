/** Content-addressed array files: a deduplicating store, and the loader of one array. */
module ArtifactArrays {
  import opened Basics
  import opened Results

  /** The arrays that evidence is made of: uint8 pictures, float32 vectors and action tables. */
  datatype Array = Image(pixels: Picture) | Vector(values: seq<real>) | Table(rows: seq<Action>)

  datatype DType = UInt8 | Float32

  function TypeOf(a: Array): DType {
    if a.Image? then UInt8 else Float32
  }

  function ShapeOf(a: Array): seq<nat> {
    match a
    case Image(p) => [|p|, |p[0]|, 3]
    case Vector(v) => [|v|]
    case Table(rows) => [|rows|, if rows == [] then 0 else |rows[0]|]
  }

  function Product(shape: seq<nat>): nat {
    if shape == [] then 1 else Product(shape[..|shape| - 1]) * shape[|shape| - 1]
  }

  /** File contents, read symbolically: the canonical encoding of an array, or other bytes. */
  datatype File = Npy(contents: Array) | OtherBytes(text: string)

  datatype ArrayPath = ArrayPath(address: Sha<File>)

  type Files = map<ArrayPath, File>

  datatype Descriptor = Descriptor(path: ArrayPath, file: Sha<File>, content: Sha<Array>, dtype: DType,
                                   shape: seq<nat>)

  const MAX_MEMBER_BYTES := 16 * 1024 * 1024
  const MAX_ARRAY_ELEMENTS := 4_000_000

  /** How long encodings are; positive for every array. */
  type Sizes = Array -> nat

  function PathOf(a: Array): ArrayPath {
    ArrayPath(Sha(Npy(a)))
  }

  function Describe(a: Array): Descriptor {
    Descriptor(PathOf(a), Sha(Npy(a)), Sha(a), TypeOf(a), ShapeOf(a))
  }

  predicate Fits(size: Sizes, a: Array) {
    size(a) <= MAX_MEMBER_BYTES
  }

  /** The bounded profile that the loader, but not the writer, insists on. */
  predicate InProfile(a: Array) {
    var shape := ShapeOf(a);
    1 <= |shape| <= 4 && (forall n <- shape :: n >= 1) && Product(shape) <= MAX_ARRAY_ELEMENTS
  }

  /** The files of a set of arrays. */
  function FilesOf(arrays: set<Array>): Files {
    map a | a in arrays :: PathOf(a) := Npy(a)
  }

  /** Every path is the address of the file it names. */
  ghost predicate Addressed(files: Files) {
    forall p <- files :: p.address == Sha(files[p])
  }

  class ArrayFileStore {
    const size: Sizes
    var files: Files

    constructor (size: Sizes)
      ensures this.size == size && files == map[]
    {
      this.size, files := size, map[];
    }

    /** Stores an array once, however often it is added. */
    method Add(a: Array) returns (r: Reply<Descriptor>)
      requires Addressed(files)
      modifies this
      ensures Addressed(files) && (r.Returned? <==> Fits(size, a))
      ensures r.Returned? ==> r.value == Describe(a) && files == old(files) + FilesOf({a})
      ensures r.Raised? ==> files == old(files)
    {
      if size(a) > MAX_MEMBER_BYTES { return Raised(OtherError); }
      var path := PathOf(a);
      if path !in files { files := files[path := Npy(a)]; }
      if files[path] != Npy(a) { return Raised(OtherError); }
      return Returned(Describe(a));
    }
  }

  /** One exact array, after every check of its descriptor and its file. */
  function LoadFrom(size: Sizes, files: Files, d: Descriptor): Reply<Array> {
    if !(1 <= |d.shape| <= 4) || (exists n <- d.shape :: n < 1) || Product(d.shape) > MAX_ARRAY_ELEMENTS
    then Raised(OtherError)
    else if d.path != ArrayPath(d.file) || d.path !in files then Raised(OtherError)
    else
      var raw := files[d.path];
      if Sha(raw) != d.file || raw.OtherBytes? then Raised(OtherError)
      else if size(raw.contents) > MAX_MEMBER_BYTES || size(raw.contents) == 0 then Raised(OtherError)
      else if ShapeOf(raw.contents) != d.shape || TypeOf(raw.contents) != d.dtype || Sha(raw.contents) != d.content
      then Raised(OtherError)
      else Returned(raw.contents)
  }

  /** The paths a loader has looked up. */
  class References {
    var paths: set<ArrayPath>

    constructor ()
      ensures paths == {}
    {
      paths := {};
    }

    method Load(size: Sizes, files: Files, d: Descriptor) returns (r: Reply<Array>)
      modifies this
      ensures r == LoadFrom(size, files, d)
      ensures paths == old(paths) || paths == old(paths) + {d.path}
      ensures r.Returned? ==> paths == old(paths) + {d.path}
    {
      if !(1 <= |d.shape| <= 4) || (exists n <- d.shape :: n < 1) { return Raised(OtherError); }
      if Product(d.shape) > MAX_ARRAY_ELEMENTS || d.path != ArrayPath(d.file) { return Raised(OtherError); }
      if d.path !in files { return Raised(OtherError); }
      paths := paths + {d.path};
      var raw := files[d.path];
      if Sha(raw) != d.file || raw.OtherBytes? { return Raised(OtherError); }
      if size(raw.contents) > MAX_MEMBER_BYTES || size(raw.contents) == 0 { return Raised(OtherError); }
      if ShapeOf(raw.contents) != d.shape || TypeOf(raw.contents) != d.dtype { return Raised(OtherError); }
      if Sha(raw.contents) != d.content { return Raised(OtherError); }
      return Returned(raw.contents);
    }
  }

  /** A stored array loads back exactly when it is within the loader's profile, and then as
      itself. */
  lemma {:induction false} StoredLoads(size: Sizes, files: Files, a: Array)
    requires PathOf(a) in files && Addressed(files) && Fits(size, a) && size(a) > 0
    ensures LoadFrom(size, files, Describe(a)) == if InProfile(a) then Returned(a) else Raised(OtherError)
  {
    assert files[PathOf(a)] == Npy(a);
    assert (exists n <- ShapeOf(a) :: n < 1) <==> !(forall n <- ShapeOf(a) :: n >= 1);
  }

  lemma {:induction false} FilesUnion(files: Files, a: set<Array>, b: set<Array>)
    requires Addressed(files)
    ensures files + FilesOf(a) + FilesOf(b) == files + FilesOf(a + b)
  {
  }
}
