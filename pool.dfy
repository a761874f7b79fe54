/** The key pool (pool.go): a Go buffered channel of API keys, whose capacity
    is fixed when it is made. A send blocks while the buffer is full and a
    receive blocks while it is empty; here both waits are preconditions, so
    each method runs only where Go's would not block. */
module Pool {

  /** An API key: the identifier sent in the `Key` header and the secret that
      keys the signature (client.go:18-22). */
  datatype Key = Key(id: string, secret: string)

  class KeyPool {
    /** The channel's buffer size, `cap(keys)`. */
    const capacity: nat
    /** The buffered keys, oldest first. */
    var keys: seq<Key>

    ghost predicate Valid()
      reads this
    {
      |keys| <= capacity
    }

    /** `make(chan *Key, capacity)`: an empty buffer. */
    constructor (capacity: nat)
      ensures Valid() && this.capacity == capacity && keys == []
    {
      this.capacity := capacity;
      keys := [];
    }

    /** `keyPool.Put` (pool.go:7-9): the key joins the back of the queue. */
    method Put(key: Key)
      requires Valid() && |keys| < capacity
      modifies this
      ensures Valid() && keys == old(keys) + [key]
    {
      keys := keys + [key];
    }

    /** `keyPool.Get` (pool.go:11-13): the oldest key leaves the queue; the
        others keep their order. */
    method Get() returns (key: Key)
      requires Valid() && keys != []
      modifies this
      ensures Valid() && key == old(keys)[0] && keys == old(keys)[1..]
    {
      key := keys[0];
      keys := keys[1..];
    }
  }

  /** A key checked in to an otherwise empty pool is the next one checked out,
      and the pool is empty again (the pattern trading_test.go:459-466 sets up
      for each request). */
  method PutThenGet(pool: KeyPool, key: Key) returns (got: Key)
    requires pool.Valid() && pool.keys == [] && pool.capacity > 0
    modifies pool
    ensures pool.Valid() && got == key && pool.keys == []
  {
    pool.Put(key);
    got := pool.Get();
  }
}
