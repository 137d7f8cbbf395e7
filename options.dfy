/** `ClubbyOptions`: per-call or connection-wide options (only a timeout). */
module Options {
  import opened Types

  class ClubbyOptions {
    /** Seconds after which a pending call fails; 0 means no timeout. */
    var timeout: Int32

    /** `createDefault()`: a fresh options object with no timeout. */
    constructor CreateDefault()
      ensures timeout == 0
    {
      timeout := 0;
    }

    /** `createFrom(src)`: a fresh object carrying the same timeout as `src`. */
    static method CreateFrom(src: ClubbyOptions) returns (r: ClubbyOptions)
      ensures fresh(r)
      ensures r.timeout == src.timeout
    {
      r := new ClubbyOptions.CreateDefault();
      var _ := r.Timeout(src.GetTimeout());
    }

    /** The fluent setter `timeout(t)`: updates this object and returns it. */
    method Timeout(t: Int32) returns (self: ClubbyOptions)
      modifies this
      ensures self == this
      ensures timeout == t
    {
      timeout := t;
      self := this;
    }

    function GetTimeout(): Int32
      reads this
    {
      timeout
    }
  }

  /** A copy made by `createFrom` is independent: setting its timeout leaves
      the source object as it was. */
  method CopyIsIndependent(src: ClubbyOptions, t: Int32) returns (copy: ClubbyOptions)
    ensures fresh(copy)
    ensures copy.timeout == t
    ensures src.timeout == old(src.timeout)
  {
    copy := ClubbyOptions.CreateFrom(src);
    var _ := copy.Timeout(t);
  }
}
