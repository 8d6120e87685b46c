// The three input streams the decrypter reads through: the shared transport
// stream, commons-io's BoundedInputStream view over it, and Bouncy Castle's
// CipherInputStream that decrypts what it reads from a bounded view.
//
// Reads are modelled one byte at a time.  IOUtils.copy reads in blocks, but
// BoundedInputStream.read(byte[], int, int) counts only the bytes actually
// returned, so the bytes taken from the shared stream are the same.
module Streams {
  import opened Types
  import Cfb

  /** How many bytes the transport can still deliver from position `pos`. */
  function Avail(data: seq<byte>, closed: bool, pos: nat): nat {
    if closed || pos >= |data| then 0 else |data| - pos
  }

  /**
   * What one read of the transport returns at position `pos`: reading a
   * closed stream throws, past the last byte a broken transport throws and a
   * healthy one reports end of stream.
   */
  function ReadAt(data: seq<byte>, broken: bool, closed: bool, pos: nat): ReadResult {
    if closed then ReadFailure
    else if pos < |data| then Byte(data[pos])
    else if broken then ReadFailure
    else Eof
  }

  /** How many bytes draining a view of `budget` bytes takes from the transport: their minimum. */
  function Drained(data: seq<byte>, closed: bool, pos: nat, budget: nat): (n: nat)
    ensures n <= budget && n <= Avail(data, closed, pos)
    ensures n == budget || n == Avail(data, closed, pos)
  {
    if budget <= Avail(data, closed, pos) then budget else Avail(data, closed, pos)
  }

  /** Draining a view of `budget` bytes throws exactly when the transport runs dry early and is not healthy. */
  predicate DrainFails(data: seq<byte>, broken: bool, closed: bool, pos: nat, budget: nat) {
    budget > Avail(data, closed, pos) && (broken || closed)
  }

  /**
   * A view of `budget` bytes that started at `p0` and has handed out the
   * bytes up to `pos` is over when its next read yields no byte: it has then
   * handed out exactly the drained bytes, and the read failed exactly when
   * draining fails.
   */
  lemma {:induction false} ViewEnd(data: seq<byte>, broken: bool, closed: bool, p0: nat, pos: nat, budget: nat, r: ReadResult)
    requires p0 <= pos <= |data| && pos - p0 <= budget && (closed ==> pos == p0)
    requires r == if pos - p0 >= budget then Eof else ReadAt(data, broken, closed, pos)
    requires !r.Byte?
    ensures pos - p0 == Drained(data, closed, p0, budget)
    ensures r.ReadFailure? <==> DrainFails(data, broken, closed, p0, budget)
  {
  }

  /** `c` is the stretch of `data` that starts at `origin`. */
  predicate Mirrors(c: seq<byte>, data: seq<byte>, origin: nat) {
    origin + |c| <= |data| && forall i :: 0 <= i < |c| ==> c[i] == data[origin + i]
  }

  lemma {:induction false} MirrorsSlice(c: seq<byte>, data: seq<byte>, origin: nat)
    requires Mirrors(c, data, origin)
    ensures c == data[origin..origin + |c|]
  {
  }

  /** The shared, forward-only transport stream: its bytes, whether it fails after them, a cursor. */
  class InputStream {
    const data: seq<byte>
    const broken: bool
    var pos: nat
    var closed: bool

    ghost predicate Valid()
      reads this
    {
      pos <= |data|
    }

    constructor (data: seq<byte>, broken: bool)
      ensures Valid() && this.data == data && this.broken == broken
      ensures pos == 0 && !closed
    {
      this.data := data;
      this.broken := broken;
      pos := 0;
      closed := false;
    }

    method Read() returns (r: ReadResult)
      requires Valid()
      modifies this
      ensures Valid() && closed == old(closed)
      ensures r == ReadAt(data, broken, closed, old(pos))
      ensures pos == old(pos) + (if r.Byte? then 1 else 0)
    {
      if closed {
        r := ReadFailure;
      } else if pos < |data| {
        r := Byte(data[pos]);
        pos := pos + 1;
      } else if broken {
        r := ReadFailure;
      } else {
        r := Eof;
      }
    }

    /** Closing never fails (IOUtils.closeQuietly discards what close throws). */
    method Close()
      requires Valid()
      modifies this
      ensures Valid() && closed && pos == old(pos)
    {
      closed := true;
    }
  }

  /** commons-io BoundedInputStream: a view that hands out at most `max` bytes of `inner`. */
  class BoundedInputStream {
    const inner: InputStream
    const max: nat
    var count: nat
    var propagateClose: bool

    ghost predicate Valid()
      reads this, inner
    {
      inner.Valid() && count <= max
    }

    constructor (inner: InputStream, max: nat)
      requires inner.Valid()
      ensures Valid() && this.inner == inner && this.max == max
      ensures count == 0 && propagateClose
    {
      this.inner := inner;
      this.max := max;
      count := 0;
      propagateClose := true;
    }

    method SetPropagateClose(propagateClose: bool)
      requires Valid()
      modifies this
      ensures Valid() && this.propagateClose == propagateClose && count == old(count)
    {
      this.propagateClose := propagateClose;
    }

    method Read() returns (r: ReadResult)
      requires Valid()
      modifies this, inner
      ensures Valid() && inner.closed == old(inner.closed) && propagateClose == old(propagateClose)
      ensures r == if old(count) >= max then Eof
                   else ReadAt(inner.data, inner.broken, inner.closed, old(inner.pos))
      ensures count == old(count) + (if r.Byte? then 1 else 0)
      ensures inner.pos == old(inner.pos) + (if r.Byte? then 1 else 0)
    {
      if count >= max {
        r := Eof;
      } else {
        r := inner.Read();
        if r.Byte? {
          count := count + 1;
        }
      }
    }

    /** Closes the underlying stream only when close propagation is on. */
    method Close()
      requires Valid()
      modifies inner
      ensures Valid() && inner.closed == (old(inner.closed) || propagateClose)
      ensures inner.pos == old(inner.pos)
    {
      if propagateClose {
        inner.Close();
      }
    }
  }

  /**
   * Bouncy Castle CipherInputStream over a CFB-128 decrypter: every byte read
   * from `source` comes out decrypted.  `ciphertext` records what has been
   * read so far (the transport's bytes from `origin` on), which determines
   * the cipher's state.
   */
  class CipherInputStream {
    const source: BoundedInputStream
    const aes: Cfb.BlockCipher
    const key: seq<byte>
    ghost const origin: nat
    var state: Cfb.State
    ghost var ciphertext: seq<byte>

    ghost predicate Valid()
      reads this, source, source.inner
    {
      && source.Valid()
      && state == Cfb.StateAfter(ciphertext)
      && origin + |ciphertext| == source.inner.pos
      && Mirrors(ciphertext, source.inner.data, origin)
    }

    constructor (source: BoundedInputStream, aes: Cfb.BlockCipher, key: seq<byte>)
      requires source.Valid()
      ensures Valid() && this.source == source && this.aes == aes && this.key == key
      ensures ciphertext == [] && origin == source.inner.pos
    {
      this.source := source;
      this.aes := aes;
      this.key := key;
      origin := source.inner.pos;
      state := Cfb.Initial();
      ciphertext := [];
    }

    method Read() returns (r: ReadResult)
      requires Valid()
      modifies this, source, source.inner
      ensures Valid()
      ensures source.inner.closed == old(source.inner.closed)
      ensures source.propagateClose == old(source.propagateClose)
      ensures var s := if old(source.count) >= source.max then Eof
                       else ReadAt(source.inner.data, source.inner.broken, source.inner.closed, old(source.inner.pos));
              (r.Eof? <==> s.Eof?) && (r.Byte? <==> s.Byte?)
      ensures source.count == old(source.count) + (if r.Byte? then 1 else 0)
      ensures source.inner.pos == old(source.inner.pos) + (if r.Byte? then 1 else 0)
      ensures r.Byte? ==> Cfb.Decrypt(aes, key, ciphertext) == Cfb.Decrypt(aes, key, old(ciphertext)) + [r.b]
      ensures !r.Byte? ==> ciphertext == old(ciphertext)
    {
      var c := source.Read();
      if c.Byte? {
        var x := c.b;
        Cfb.DecryptAppend(aes, key, ciphertext, x);
        r := Byte(Cfb.KeyByte(aes, key, state) ^ x);
        state := Cfb.Feed(state, x);
        ciphertext := ciphertext + [x];
      } else {
        r := c;
      }
    }

    /** Closing the cipher stream closes its source view. */
    method Close()
      requires Valid()
      modifies source.inner
      ensures Valid()
      ensures source.inner.closed == (old(source.inner.closed) || source.propagateClose)
      ensures source.inner.pos == old(source.inner.pos)
    {
      source.Close();
    }
  }
}
