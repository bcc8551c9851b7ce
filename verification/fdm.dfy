/** File-based message passing between processes (fdm.hpp): the paths a
    domain's message and its temporary files live at. A path is its native
    string, and `+=` on a path appends to that string with no separator. */
module Fdm {

  type Address = string

  /** `message_address`: where the message for domain `d` is published. */
  function MessageAddress(d: Address): (a: Address)
    ensures a == d + ".fdm"
  {
    d + ".fdm"
  }

  /** `send_address`: the temporary path a message is written to before it is renamed into place. */
  function SendAddress(x: Address): (a: Address)
    ensures a == x + ".send"
  {
    x + ".send"
  }

  /** `recv_address`: the temporary path a message is renamed to while it is read. */
  function RecvAddress(x: Address): (a: Address)
    ensures a == x + ".recv"
  {
    x + ".recv"
  }

  /** The temporary path of `send`. */
  function SendTemp(d: Address): (a: Address)
    ensures a == d + ".fdm.send"
  {
    SendAddress(MessageAddress(d))
  }

  /** The temporary path of `recv`. */
  function RecvTemp(d: Address): (a: Address)
    ensures a == d + ".fdm.recv"
  {
    RecvAddress(MessageAddress(d))
  }

  /** `send` writes next to the message path: the message path is a proper prefix of its temporary path. */
  lemma SendTempExtendsMessage(d: Address)
    ensures SendTemp(d) == d + ".fdm.send"
    ensures MessageAddress(d) < SendTemp(d)
  {
    assert SendTemp(d)[..|MessageAddress(d)|] == MessageAddress(d);
  }

  lemma RecvTempExtendsMessage(d: Address)
    ensures RecvTemp(d) == d + ".fdm.recv"
    ensures MessageAddress(d) < RecvTemp(d)
  {
    assert RecvTemp(d)[..|MessageAddress(d)|] == MessageAddress(d);
  }

  /** The last four characters of a path. */
  function Tail4(a: Address): string
    requires |a| >= 4
  {
    a[|a| - 4..]
  }

  /** The three kinds of path never collide, for any two domains: they end
      in ".fdm", ".send" and ".recv" respectively. */
  lemma AddressKindsDistinct(d: Address, e: Address)
    ensures SendTemp(d) != MessageAddress(e)
    ensures RecvTemp(d) != MessageAddress(e)
    ensures RecvTemp(d) != SendTemp(e)
  {
    assert Tail4(MessageAddress(e)) == ".fdm";
    assert Tail4(SendTemp(d)) == "send";
    assert Tail4(RecvTemp(d)) == "recv";
    assert Tail4(SendTemp(e)) == "send";
  }

  /** Different domains publish at different paths. */
  lemma MessageAddressInjective(d: Address, e: Address)
    requires MessageAddress(d) == MessageAddress(e)
    ensures d == e
  {
    assert |d| == |e|;
    assert d == MessageAddress(d)[..|d|];
    assert e == MessageAddress(e)[..|e|];
  }
}
