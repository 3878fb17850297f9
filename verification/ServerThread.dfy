/** The bodies of the web server's threads, over the linked queue and the cache on the heap. */
module ServerThreads {
  import opened Sequences
  import opened CacheModel
  import opened FileCaches
  import opened RequestQueues
  import opened ServerSystem
  import opened ServerInvariants

  /** server_request, once the queue has room: the workers are told exactly if they could be waiting. */
  method PushRequest(queue: RequestQueue, connfd: int) returns (broadcast: bool)
    requires queue.Valid() && |queue.Contents()| < queue.maxSize
    modifies queue, queue.owned
    ensures queue.Valid() && queue.Contents() == old(queue.Contents()) + [connfd]
    ensures broadcast <==> old(queue.Contents()) == []
    ensures fresh(queue.owned - old(queue.owned))
  {
    var ok := queue.PushBack(connfd);
    assert ok;
    broadcast := queue.currSize == 1;
  }

  /**
   helper_thread_do_server_request, once the queue is not empty: the main
   thread is told exactly if it could be waiting.
   */
  method PopRequest(queue: RequestQueue) returns (connfd: int, broadcast: bool)
    requires queue.Valid() && queue.Contents() != []
    modifies queue`head, queue`tail, queue`currSize, queue`nodes
    ensures queue.Valid() && old(queue.Contents()) == [connfd] + queue.Contents()
    ensures broadcast <==> |old(queue.Contents())| == queue.maxSize
  {
    var ok;
    ok, connfd := queue.PopFront();
    assert ok;
    broadcast := queue.currSize == queue.maxSize - 1;
  }

  /**
   do_server_request of a server with a cache: the answer is the file in the
   store, a file that fits is cached, and the cache stays in order. The server
   crashes exactly on an empty file that it would cache.
   */
  method DoServerRequest(cfg: Config, cache: FileCache, connfd: int) returns (file: Option<FileData>, crash: bool)
    requires cfg.maxCache != 0 && cache.Valid() && CacheOk(cfg, cache.Abs())
    modifies cache, cache.lists, cache.entries, cache.queue, cache.queue.owned
    ensures cache.Valid() && CacheOk(cfg, cache.Abs())
    ensures file == Uncached(cfg, connfd)
    ensures file.Some? && file.value.fileSize > 0 ==> file.value.fileBuf == Some(cfg.store[cfg.asks[connfd]])
    ensures crash <==> file.Some? && file.value.fileSize == 0 <= cfg.maxCache
    ensures file.Some? && 0 < file.value.fileSize <= cfg.maxCache ==> Find(cache.Abs(), file.value.fileName) == file
    ensures fresh(cache.entries - old(cache.entries)) && fresh(cache.queue.owned - old(cache.queue.owned))
  {
    hide FileCache.Valid;
    if connfd !in cfg.asks {
      return None, false;
    }
    var name := cfg.asks[connfd];
    file := cache.FindInTable(name);
    if file.None? {
      if name !in cfg.store {
        return None, false;
      }
      file := Some(FileOf(cfg.store, name));
    }
    if file.value.fileSize > cfg.maxCache {
      return file, false;
    } else if file.value.fileBuf.None? {
      return file, true;
    }
    AddConsistent(cache.Abs(), name, file.value);
    AddMirrors(cache.Abs(), name, cfg.store);
    assert Mirrors(Add(cache.Abs(), name, file.value).files, cfg.store);
    var added := cache.AddToTable(file.value.fileName, file.value);
    return file, false;
  }

  /** do_server_request of a server without a cache: the same crash, and the missing cache is never touched. */
  method DoUncachedRequest(cfg: Config, connfd: int) returns (file: Option<FileData>, crash: bool)
    requires cfg.maxCache == 0
    ensures file == Uncached(cfg, connfd)
    ensures crash <==> file.Some? && file.value.fileSize == 0
  {
    if connfd !in cfg.asks || cfg.asks[connfd] !in cfg.store {
      return None, false;
    }
    file := Some(FileOf(cfg.store, cfg.asks[connfd]));
    if file.value.fileSize > cfg.maxCache {
      return file, false;
    }
    assert file.value.fileBuf.None?;
    crash := true;
  }
}
