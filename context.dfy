/** A library context: the plugin chunks it owns and the operations that install plugins into
    them. Locking is left out; each chunk is an object the context reaches directly. */
module Context {
  import opened Options
  import opened Signatures
  import opened PluginTags
  import opened Chunks

  /** The tag plugin a client registers: a tag signature and its descriptor. */
  datatype PluginTag = PluginTag(signature: Signature, descriptor: TagDescriptor)

  class Context {
    const errorHandler: LogErrorChunk
    const tagPlugin: TagPluginChunk

    /** A context with the default error handler and no tag plugins. */
    constructor ()
      ensures fresh(errorHandler) && fresh(tagPlugin)
      ensures errorHandler.handler == DefaultLogErrorHandler && tagPlugin.tag == []
    {
      errorHandler := new LogErrorChunk(None);
      tagPlugin := new TagPluginChunk();
    }

    /** `register_tag_plugin`: `None` clears the list, `Some` appends one item; the answer is
        always `true`. Lookups that found something before find the same item afterwards. */
    method RegisterTagPlugin(plugin: Option<PluginTag>) returns (ok: bool)
      modifies tagPlugin
      ensures ok
      ensures plugin.None? ==> tagPlugin.tag == []
      ensures plugin.Some? ==>
        tagPlugin.tag == old(tagPlugin.tag) + [TagListItem(plugin.value.signature, plugin.value.descriptor)]
      ensures plugin.Some? ==> forall sig: Signature | Lookup(old(tagPlugin.tag), sig).Some? ::
        Lookup(tagPlugin.tag, sig) == Lookup(old(tagPlugin.tag), sig)
    {
      match plugin {
        case None =>
          tagPlugin.tag := [];
          return true;
        case Some(p) =>
          var item := TagListItem(p.signature, p.descriptor);
          forall sig: Signature | Lookup(tagPlugin.tag, sig).Some?
            ensures Lookup(tagPlugin.tag + [item], sig) == Lookup(tagPlugin.tag, sig)
          {
            LookupAppend(tagPlugin.tag, item, sig);
          }
          tagPlugin.tag := tagPlugin.tag + [item];
          return true;
      }
    }

    /** `set_log_error_handler`: the given handler, or the default one; the tag list is untouched. */
    method SetLogErrorHandler(func: Option<LogErrorHandlerFunction>)
      modifies errorHandler
      ensures func.Some? ==> errorHandler.handler == func.value
      ensures func.None? ==> errorHandler.handler == DefaultLogErrorHandler
      ensures tagPlugin.tag == old(tagPlugin.tag)
    {
      errorHandler.handler := match func {
        case Some(f) => f
        case None => DefaultLogErrorHandler
      };
    }
  }
}
