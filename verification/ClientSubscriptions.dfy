module ClientSubscriptions {
  import opened Wrappers
  import opened Channels
  import opened JsonRpc

  const CLIENT_QUIT := Error("client is closed", None, None)

  /** The channels and once-guards of a subscription.  A value in err is the error a receiver sees, None for nil. */
  datatype SubView = SubView(quit: Chan<()>, err: Chan<Option<Error>>, quitOnce: bool, errOnce: bool)

  function Reported(err: Error): Option<Error> {
    if err == CLIENT_QUIT then None else Some(err)
  }

  /** quitWithError run to the end: only the first call has an effect. */
  function Quit(v: SubView, err: Option<Error>): SubView {
    if v.quitOnce then v else
    v.(quitOnce := true,
       quit := Close(v.quit),
       err := match err case None => v.err case Some(e) => Send(v.err, Reported(e)))
  }

  function Unsubscribed(v: SubView): SubView {
    var w := Quit(v, None);
    if w.errOnce then w else w.(errOnce := true, err := Close(w.err))
  }

  class ClientSubscription {
    var subid: string
    var starts: nat
    var quit: Chan<()>
    var err: Chan<Option<Error>>
    var quitOnce: bool
    var errOnce: bool
    var asked: nat  // how often the server was asked to unsubscribe

    constructor ()
      ensures View() == SubView(Make(0), Make(1), false, false) && starts == 0 && asked == 0
    {
      subid, starts := "", 0;
      quit, err := Make(0), Make(1);
      quitOnce, errOnce, asked := false, false, 0;
    }

    ghost function View(): SubView
      reads this
    {
      SubView(quit, err, quitOnce, errOnce)
    }

    /** The first call closes quit, asks the server if told to, and reports its error, that of a closed client as nil. */
    method QuitWithError(unsubscribeServer: bool, err: Option<Error>)
      modifies this`quit, this`err, this`quitOnce, this`asked
      ensures View() == Quit(old(View()), err)
      ensures old(quitOnce) ==> View() == old(View()) && asked == old(asked)
      ensures !old(quitOnce) ==> quitOnce && asked == old(asked) + if unsubscribeServer then 1 else 0
      ensures old(!quitOnce && !quit.closed) ==> quit == old(quit).(closed := true)
      ensures err.None? ==> this.err == old(this.err)
      ensures err.Some? && old(!quitOnce && !this.err.closed && |this.err.buf| < this.err.cap) ==>
        this.err == old(this.err).(buf := old(this.err.buf) + [if err.value == CLIENT_QUIT then None else err])
    {
      if quitOnce {
        return;
      }
      quitOnce := true;
      quit := Close(quit);
      if unsubscribeServer {
        asked := asked + 1;
      }
      match err
      case None =>
      case Some(e) => this.err := Send(this.err, Reported(e));
    }

    method Unsubscribe()
      modifies this`quit, this`err, this`quitOnce, this`errOnce, this`asked
      ensures View() == Unsubscribed(old(View()))
      ensures quitOnce && errOnce && asked == old(asked) + if old(quitOnce) then 0 else 1
      ensures old(!errOnce && !err.closed) ==> err == old(err).(closed := true)
      ensures old(errOnce) ==> err == old(err)
    {
      QuitWithError(true, None);
      if !errOnce {
        errOnce := true;
        err := Close(err);
      }
    }
  }
}
