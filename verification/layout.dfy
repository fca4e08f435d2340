/**
  The vertex-attribute layout: a fold over pushed attributes that hands out
  attribute indices in order and computes each attribute's byte offset and
  byte stride. The GL calls it makes (glEnableVertexAttribArray and
  glVertexAttribPointer) are returned as `AttribPointer` records. The
  counters and products are `unsigned int` in the source, so every sum and
  product wraps modulo 2^32.
*/
module Layout {
  import opened Gl

  /** 2^32: `unsigned int` arithmetic is modulo this. */
  const U32: nat := 0x1_0000_0000

  /** A value of `unsigned int`. */
  type Uint = x: nat | x < U32

  /** The `unsigned int` result of an exact sum or product. */
  function Wrap(x: nat): Uint {
    x % U32
  }

  datatype VertexAttrib = VertexAttrib(count: Uint, glType: int, stride: Uint)

  /** One enable + glVertexAttribPointer(index, count, type, GL_FALSE,
      strideBytes, offset) pair. */
  datatype AttribPointer = AttribPointer(index: Uint, count: Uint, glType: int, strideBytes: Uint, offset: Uint)

  datatype Layout = Layout(index: Uint, stride: Uint, offsetCount: Uint)

  datatype Pushed = Pushed(layout: Layout, pointer: AttribPointer)

  datatype Pushes = Pushes(layout: Layout, pointers: seq<AttribPointer>)

  // sizeof of the GL scalar types: GLfloat, GLint and GLuint are 32-bit, GLubyte is 8-bit
  const SIZEOF_GLFLOAT: nat := 4
  const SIZEOF_GLINT: nat := 4
  const SIZEOF_GLUINT: nat := 4
  const SIZEOF_GLUBYTE: nat := 1

  /** `Layout()`: nothing pushed yet. */
  function New(): (l: Layout)
    ensures l.index == 0 && l.stride == 0 && l.offsetCount == 0
  {
    Layout(0, 0, 0)
  }

  // ---- modular arithmetic -------------------------------------------------------

  lemma ModShift(a: int, k: int)
    ensures (a + k * U32) % U32 == a % U32
  {
  }

  /** Wrapping an intermediate sum does not change a later wrapped sum. */
  lemma WrapAdd(x: nat, c: nat)
    ensures Wrap(Wrap(x) + c) == Wrap(x + c)
  {
    ModShift(x % U32 + c, x / U32);
  }

  /** Wrapping a factor does not change the wrapped product. */
  lemma WrapMul(x: nat, s: nat)
    ensures Wrap(Wrap(x) * s) == Wrap(x * s)
  {
    var q := x / U32;
    assert x * s == (x % U32) * s + (q * s) * U32 by {
      assert x == x % U32 + q * U32;
    }
    ModShift((x % U32) * s, q * s);
  }

  /** `GetTypeSize`: byte size of the four supported component types, 0 for
      anything else. */
  function TypeSize(glType: int): (size: nat)
    ensures size != 0 <==> glType in {FLOAT, INT, UNSIGNED_INT, UNSIGNED_BYTE}
    ensures glType in {FLOAT, INT, UNSIGNED_INT} ==> size == 4
    ensures glType == UNSIGNED_BYTE ==> size == 1
  {
    if glType == FLOAT then SIZEOF_GLFLOAT
    else if glType == INT then SIZEOF_GLINT
    else if glType == UNSIGNED_INT then SIZEOF_GLUINT
    else if glType == UNSIGNED_BYTE then SIZEOF_GLUBYTE
    else 0
  }

  /** `Push(count, type, stride)`: the attribute takes the layout's next
      index and starts after the components counted so far, both measured in
      its own type's size; an unsupported type (size 0) gets offset and
      stride 0. The layout's own `stride_` is never written. */
  function Push(l: Layout, a: VertexAttrib): (r: Pushed)
    ensures r.pointer.index == l.index && Wrap(r.pointer.index + 1) == r.layout.index
    ensures r.pointer.count == a.count && r.pointer.glType == a.glType
    ensures r.layout.stride == l.stride && r.layout.offsetCount == Wrap(l.offsetCount + a.count)
    ensures a.glType in {FLOAT, INT, UNSIGNED_INT} ==>
              r.pointer.offset == Wrap(4 * l.offsetCount) && r.pointer.strideBytes == Wrap(4 * a.stride)
    ensures a.glType == UNSIGNED_BYTE ==> r.pointer.offset == l.offsetCount && r.pointer.strideBytes == a.stride
    ensures a.glType !in {FLOAT, INT, UNSIGNED_INT, UNSIGNED_BYTE} ==> r.pointer.offset == 0 && r.pointer.strideBytes == 0
  {
    var size := TypeSize(a.glType);
    var offset := Wrap(l.offsetCount * size);
    Pushed(Layout(Wrap(l.index + 1), l.stride, Wrap(l.offsetCount + a.count)),
           AttribPointer(l.index, a.count, a.glType, Wrap(a.stride * size), offset))
  }

  /** Pushing attributes one by one, in order. */
  function PushEach(l: Layout, attribs: seq<VertexAttrib>): Pushes
    decreases |attribs|
  {
    if attribs == [] then Pushes(l, [])
    else
      var before := PushEach(l, attribs[..|attribs| - 1]);
      var last := Push(before.layout, attribs[|attribs| - 1]);
      Pushes(last.layout, before.pointers + [last.pointer])
  }

  /** Total component count of a run of attributes. */
  function SumCounts(attribs: seq<VertexAttrib>): nat {
    if attribs == [] then 0 else SumCounts(attribs[..|attribs| - 1]) + attribs[|attribs| - 1].count
  }

  /** After a run of pushes the layout has handed out one index per
      attribute and counted all their components, modulo 2^32; its `stride_`
      is never written. */
  lemma {:induction false} PushEachLayout(l: Layout, attribs: seq<VertexAttrib>)
    ensures var r := PushEach(l, attribs);
            && r.layout == Layout(Wrap(l.index + |attribs|), l.stride, Wrap(l.offsetCount + SumCounts(attribs)))
            && |r.pointers| == |attribs|
    decreases |attribs|
  {
    if attribs != [] {
      var n := |attribs| - 1;
      PushEachLayout(l, attribs[..n]);
      WrapAdd(l.index + n, 1);
      WrapAdd(l.offsetCount + SumCounts(attribs[..n]), attribs[n].count);
    }
  }

  /** The k-th call a run of pushes makes, in closed form: index `index + k`,
      a byte stride of the attribute's stride times its type size, and a
      byte offset of (components of everything pushed before it) times its
      own type size, each modulo 2^32. */
  function PointerAt(l: Layout, attribs: seq<VertexAttrib>, k: nat): AttribPointer
    requires k < |attribs|
  {
    var size := TypeSize(attribs[k].glType);
    AttribPointer(Wrap(l.index + k), attribs[k].count, attribs[k].glType, Wrap(attribs[k].stride * size),
                  Wrap((l.offsetCount + SumCounts(attribs[..k])) * size))
  }

  /** Every call of a run of pushes is the closed form above. */
  lemma {:induction false} PushEachClosedForm(l: Layout, attribs: seq<VertexAttrib>)
    ensures var r := PushEach(l, attribs);
            && |r.pointers| == |attribs|
            && forall k | 0 <= k < |attribs| :: r.pointers[k] == PointerAt(l, attribs, k)
    decreases |attribs|
  {
    if attribs != [] {
      var n := |attribs| - 1;
      var init := attribs[..n];
      PushEachClosedForm(l, init);
      PushEachLayout(l, init);
      var before := PushEach(l, init);
      var r := PushEach(l, attribs);
      assert r.pointers == before.pointers + [Push(before.layout, attribs[n]).pointer];
      forall k | 0 <= k < |attribs|
        ensures r.pointers[k] == PointerAt(l, attribs, k)
      {
        if k < n {
          assert r.pointers[k] == before.pointers[k];
          assert attribs[k] == init[k];
          assert attribs[..k] == init[..k];
          assert PointerAt(l, attribs, k) == PointerAt(l, init, k);
        } else {
          assert attribs[..k] == init;
          WrapMul(l.offsetCount + SumCounts(init), TypeSize(attribs[n].glType));
        }
      }
    }
  }

  /** From a fresh layout: after n pushes `Index()` is n and the offset
      count is the components pushed (both modulo 2^32), `Stride()` is still
      0, attribute k gets index k, and the first attribute sits at byte
      offset 0. With nothing pushed the layout is the fresh one. */
  lemma {:induction false} FreshLayoutPushes(attribs: seq<VertexAttrib>)
    ensures var r := PushEach(New(), attribs);
            && r.layout.index == Wrap(|attribs|)
            && r.layout.offsetCount == Wrap(SumCounts(attribs))
            && r.layout.stride == 0
            && |r.pointers| == |attribs|
            && (forall k | 0 <= k < |attribs| :: r.pointers[k].index == Wrap(k))
            && (attribs != [] ==> r.pointers[0].offset == 0)
  {
    var r := PushEach(New(), attribs);
    PushEachLayout(New(), attribs);
    PushEachClosedForm(New(), attribs);
    forall k | 0 <= k < |attribs| ensures r.pointers[k].index == Wrap(k) {
      assert r.pointers[k] == PointerAt(New(), attribs, k);
    }
    if attribs != [] {
      assert attribs[..0] == [];
      assert r.pointers[0] == PointerAt(New(), attribs, 0);
      assert Wrap((0 + SumCounts(attribs[..0])) * TypeSize(attribs[0].glType)) == 0;
    }
  }

  /** `Push(initializer_list)`: the loop over the list. */
  method PushList(l: Layout, list: seq<VertexAttrib>) returns (r: Layout, pointers: seq<AttribPointer>)
    ensures Pushes(r, pointers) == PushEach(l, list)
    ensures r.stride == l.stride
    ensures |pointers| == |list|
  {
    r := l;
    pointers := [];
    var i := 0;
    while i < |list|
      invariant i <= |list|
      invariant Pushes(r, pointers) == PushEach(l, list[..i])
      invariant r.stride == l.stride && |pointers| == i
    {
      var attrib := list[i];
      var size := TypeSize(attrib.glType);
      var offset := Wrap(r.offsetCount * size);
      pointers := pointers + [AttribPointer(r.index, attrib.count, attrib.glType, Wrap(attrib.stride * size), offset)];
      r := Layout(Wrap(r.index + 1), r.stride, Wrap(r.offsetCount + attrib.count));
      assert list[..i + 1][..i] == list[..i];
      i := i + 1;
    }
    assert list[..i] == list;
  }
}
