# Verified models of indicator-network

indicator-network shows and controls network state on a phone: it builds menus and action groups for the panel, talks
to NetworkManager and oFono, and edits VPN connections. Most of its components keep some derived state (a flat menu, a
published set, a cached maximum, a pending settings map) in step with a simpler truth while events arrive one by one.
This project models those components in Dafny and proves that the derived state is always the right function of the
truth, over every run.

An object of the program is a class here, with the same fields and, for each slot or method, a method that performs the
same steps. A signal is a synchronous call to the connected objects. A reply of the bus, the value of a setting and the
expiry of a timer are arguments or explicit steps. Ghost fields record what a specification needs and the program does not
keep: what a merger was told, the snapshot of a batch, the numbers drawn in a queue.

## Files

- `Sequences.dfy`: splices, concatenations, filtering and ordered insertion.
- `MenuModel.dfy`: `GMenu`, `Menu` and `MenuMerger`. Mergers nest: an edit of a leaf is propagated item by item through
  every level, and the invariant `Settled` holds again after each event. A merger in the middle is handled by tracking how
  far above the edited menu the tree is already in step.
- `WifiMenu.dfy`: the menu of a Wi-Fi link on top of two real menus and two nested mergers.
- `ActionTallies.dfy`: the counts and names that a merger keeps, over any run of announcements and withdrawals.
- `ActionGroups.dfy`: action groups and their mergers, in an acyclic network in which groups may be shared.
- `Decimal.dfy`, `OptionType.dfy`: printed integers, optional values and map lookups.
- `Openvpn.dfy`, `Pptp.dfy`: the settings as data, what they print as, what is parsed from a map, and the round trips.
- `OpenvpnLaws.dfy`: what is sent and read back of OpenVPN settings, field by field.
- `VpnSettings.dfy`: the plugin objects with committed and pending settings.
- `VpnConnections.dfy`: a connection with its batch of pending settings and its activation flags.
- `VpnManagement.dfy`: the manager, its broadcast flags, and the naming of new connections.
- `AccessPoints.dfy`: access points grouped by network, with cached strength and time.
- `SimUnlock.dfy`: the PIN and PUK dialog and the queue of modems, which call each other recursively.
- `MobileData.dfy`: the selection of the one SIM that carries mobile data.
- `ListModel.dfy`: the list model of VPN connections and the row changes it announces.

## What the proofs found

Some expected properties do not hold of the code for all inputs. The code is modelled as it is, and the exact condition is
proved.

- A property write on an OpenVPN connection rebuilds the pending settings or the pending secrets, never both. In a batch
  that wrote secrets, the pending secrets are current exactly if the connection type is the one at the last write of a
  secret, and the proxy type is too or there is no proxy password (`VpnConnections.VpnConnection.SecretsCurrentIff`, and the
  run `VpnConnections.VpnConnection.PasswordThenType` through dispatch). In PPTP both always stay current.
- A batch starts from the last settings that arrived. Until they arrive, what was dispatched is not among them, and the next
  batch sends back the old value of every key it does not write (`VpnConnections.VpnConnection.IdThenFlag`).
- Parsing printed PPTP settings gives the same settings back only under the condition of `Pptp.ParseInvertsPrintIff`:
  requiring MPPE refuses the other methods in print, and stateful MPPE without required MPPE is not printed
  (`Pptp.LossyExample`).
- Enabling or disabling mobile data reaches the SIMs of ready modems only, and asking again for the value that is already
  set is ignored. After any call data is in effect for the selected SIM exactly if none is selected, the SIM already was as
  wanted, or the call was not ignored and some ready modem holds the SIM
  (`MobileData.MobileDataManager.SetMobileDataEnabled`). Two failing runs are `MobileData.EnablingMissesSim` and
  `MobileData.EnablingAgainMissesSim`.
- The assertion in `ActionGroupMerger::removeAction` can fail, and the output can miss an action, once two groups have held
  different actions of one name. Whether a run and taking everything back pass is decided by that alone
  (`ActionTallies.TornDownIff`, `ActionTallies.AlwaysUnionIff`; failing runs are `ActionTallies.IgnoredThenWithdrawn` and
  `ActionTallies.WithdrawnForAnother`).
- `AccessPointImpl` reads a reported strength above 127 as a negative number, and `GroupedAccessPoint` rebuilds its cache
  from 0. The rebuilt cache is the maximum of the members exactly if that is not negative
  (`AccessPoints.GroupedAccessPoint.RemoveAp`, with the run `AccessPoints.StrongerLeaves`).

A cached strength follows a report only if it is off by more than a hundredth. `AccessPoints.GroupedAccessPoint.UpdateStrength`
gives that bound for real numbers, and `AccessPoints.WifiLink.WholeIsExact` the exact case, which is the code's: it reads
whole numbers only.

## Model

| member | source | states |
|---|---|---|
| `MenuModel.ItemsAreDepthFirst` | `src/menumodel-cpp/menu-merger.h:52-134` | between events the flat list of every menu of a settled tree is the depth-first concatenation of the leaves below it |
| `MenuModel.MenuMerger.ItemsChanged` | `src/menumodel-cpp/menu-merger.h:52-81` | the removal loop, the back-to-front insertion loop and the position update together splice one sub-menu inside the concatenation; the index stays the prefix lengths, and everything above the merger is settled again |
| `MenuModel.MenuMerger.RemoveRun` | `src/menumodel-cpp/menu-merger.h:59-61` | removing one item at a time at one position is one cut, with every intermediate list propagated |
| `MenuModel.MenuMerger.InsertRun` | `src/menumodel-cpp/menu-merger.h:62-66` | inserting back to front at one position is one insertion in the right order |
| `MenuModel.MenuMerger.ShiftStarts` | `src/menumodel-cpp/menu-merger.h:68-80` | only the starts of the menus after the edited one move, by the difference in length |
| `MenuModel.MenuMerger.ItemsChangedCallback` | `src/menumodel-cpp/menu-merger.h:42-50` | one edit of a listed menu leaves the merger repeating its menus exactly, and touches nothing at its depth or below but its own output |
| `MenuModel.MenuMerger.Append` | `src/menumodel-cpp/menu-merger.h:97-118` | the menu is listed last, observed, and the whole tree is settled |
| `MenuModel.MenuMerger.Remove` | `src/menumodel-cpp/menu-merger.h:120-134` | the menu is gone from list and output, no longer observed, and the whole tree is settled |
| `MenuModel.MenuMerger.Clear` | `src/menumodel-cpp/menu-merger.h:136-141` | no menu and no item is left, and the tree is settled |
| `MenuModel.GMenu.EmitItemsChanged` | `src/menumodel-cpp/menu-merger.h:42-50` | a signal that reports the difference between two contents of a menu brings its observer, and all above it, up to date |
| `Sequences.FlattenSplice` | `src/menumodel-cpp/menu-merger.h:57-66` | a splice of one part is the same splice of the concatenation, offset by the start of the part |
| `Sequences.StartReplaced` | `src/menumodel-cpp/menu-merger.h:68-80` | replacing a part moves exactly the starts after it, by the difference in length |
| `MenuModel.Menu.Append` | `src/menumodel-cpp/menu.cpp:32-39` | the list grows at the end, the GMenu mirrors it and the tree settles |
| `MenuModel.Menu.Insert` | `src/menumodel-cpp/menu.cpp:41-54` | the item stands at the position in both lists and the tree settles |
| `MenuModel.Menu.InsertOrdered` | `src/menumodel-cpp/menu.cpp:56-73` | the item stands at its insertion point for any comparison function, mirrored and settled |
| `Sequences.InsertInOrderSorted` | `src/menumodel-cpp/menu.cpp:56-73` | with a strict weak order a sorted list stays sorted, and equal items keep their order of arrival |
| `Sequences.InsertInOrderElements` | `src/menumodel-cpp/menu.cpp:56-73` | nothing but the new item is added |
| `MenuModel.Menu.Remove` | `src/menumodel-cpp/menu.cpp:78-94` | exactly the item at the position goes; the end position is ignored |
| `MenuModel.Menu.RemoveAll` | `src/menumodel-cpp/menu.cpp:96-116` | the backward deletion loop in the GMenu equals filtering the list |
| `Sequences.WithoutIsFilter` | `src/menumodel-cpp/menu.cpp:114-115` | filtering removes every occurrence of one item and keeps the number of every other |
| `MenuModel.Menu.Clear` | `src/menumodel-cpp/menu.cpp:151-156` | both lists are empty and the tree settles |
| `MenuModel.Menu.ItemChanged` | `src/menumodel-cpp/menu.cpp:158-170` | an item whose attributes changed is shown anew at each of its positions, in list and GMenu, and the tree settles |
| `WifiMenu.WifiLinkItem.UpdateAccessPoints` | `src/indicator/menuitems/wifi-link-item.cpp:125-169` | exactly the given access points with a name are tracked, those already tracked keep their items, and the state is one in which MenusShowAccessPoints and OthersAscend say what the menus show |
| `WifiMenu.WifiLinkItem.UpdateActiveAccessPoint` | `src/indicator/menuitems/wifi-link-item.cpp:171-194` | the connected menu is exactly the item of the active access point if it is tracked, the other menu lists all others once and in order, and only the active action state is true |
| `WifiMenu.WifiLinkItem.ShowActive` | `src/indicator/menuitems/wifi-link-item.cpp:182-193` | the loop over tracked access points moves the active one and sets every action state |
| `WifiMenu.WifiLinkItem.ReturnConnected` | `src/indicator/menuitems/wifi-link-item.cpp:175-180` | the item shown as connected goes back to its place in the other menu |
| `WifiMenu.WifiLinkItem.Track` | `src/indicator/menuitems/wifi-link-item.cpp:150-168` | one more access point, active or not, keeps the menus right |
| `WifiMenu.WifiLinkItem.Untrack` | `src/indicator/menuitems/wifi-link-item.cpp:139-148` | one access point less, active or not, keeps the menus right |
| `WifiMenu.WifiLinkItem.Populate` | `src/indicator/menuitems/wifi-link-item.cpp:103-119` | construction ends with all invariants and the tree of menus attached |
| `WifiMenu.RootShowsActiveFirst` | `src/indicator/menuitems/wifi-link-item.cpp:112-121` | the section shows top, connected, other and bottom items in that order |
| `WifiMenu.MenusShowAccessPoints` | `src/indicator/menuitems/wifi-link-item.cpp:125-194` | the connected menu holds the item of the active access point alone, if it is tracked; each other tracked access point is once in the other menu, and nothing else; items carry the upper-cased SSID; exactly the action of the active one is on |
| `WifiMenu.OthersAscend` | `src/indicator/menuitems/wifi-link-item.cpp:91-101` | of two items in the other menu the label of the first is the beginning of the second, or has the smaller character where they part |
| `Sequences.StringLessMeans` | `src/indicator/menuitems/wifi-link-item.cpp:100` | one string goes before another exactly if it ends first, or has the smaller character, where the two part |
| `WifiMenu.BySsidIsWeakOrder` | `src/indicator/menuitems/wifi-link-item.cpp:91-101` | comparing upper-cased labels is a strict weak order |
| `WifiMenu.InsertInOrderBySsid` | `src/indicator/menuitems/wifi-link-item.cpp:166` | insertion keeps the other menu sorted by upper-cased SSID and adds one item |
| `ActionGroups.OutputIsUnion` | `src/menumodel-cpp/action-group-merger.cpp:23-104` | between events a merger publishes exactly the union of its groups, counts for each action the groups that hold it, and its names find their actions |
| `ActionGroups.ActionsAreLeafActions` | `src/menumodel-cpp/action-group-merger.cpp:71-104` | in any acyclic network of mergers, shared groups included, every group holds the union of the leaves below it |
| `ActionTallies.TornDownIff` | `src/menumodel-cpp/action-group-merger.cpp:23-62` | over every run of announcements and withdrawals that ends with nothing registered, the assertion on removal holds throughout exactly if at no moment two different actions of one name were held |
| `ActionTallies.AlwaysUnionIff` | `src/menumodel-cpp/action-group-merger.cpp:23-62` | over every run, the assertion holds and the counted actions are the union of what is held at every moment, exactly if at no moment two different actions of one name were held |
| `ActionTallies.RemovalFailsIff` | `src/menumodel-cpp/action-group-merger.cpp:50-55` | at any point of any run, the assertion fails on a withdrawal exactly if as many announcements of that action were ignored before as groups hold it now |
| `ActionTallies.IgnoredThenWithdrawn` | `src/menumodel-cpp/action-group-merger.cpp:32-55` | two groups with equal names: the second action is ignored, and its withdrawal finds no count |
| `ActionTallies.WithdrawnForAnother` | `src/menumodel-cpp/action-group-merger.cpp:56-61` | after a conflict a withdrawal may pass the assertion and unpublish an action that another group still holds |
| `ActionTallies.HeldIsLastStep` | `src/menumodel-cpp/action-group-merger.cpp:23-62` | in a run a group holds exactly the actions that it announced and has not withdrawn since |
| `ActionGroups.ActionGroupMerger.AddAction` | `src/menumodel-cpp/action-group-merger.cpp:23-48` | an action is counted once more for the group that announced it, unless its name is taken by another; the network above settles; what is kept is that of the run model |
| `ActionGroups.ActionGroupMerger.RemoveAction` | `src/menumodel-cpp/action-group-merger.cpp:50-62` | an announced removal is counted down and an action that nobody holds leaves output, names and counts; for an action that was never counted the assertion fails; what is kept is that of the run model |
| `ActionGroups.ActionGroupMerger.AddGroup` | `src/menumodel-cpp/action-group-merger.cpp:71-87` | registering a group, or one already registered, leaves the whole network settled |
| `ActionGroups.ActionGroupMerger.RemoveGroup` | `src/menumodel-cpp/action-group-merger.cpp:89-104` | unregistering a group, or one not registered, leaves the whole network settled |
| `ActionGroups.ActionGroupMerger.NoConflict` | `src/menumodel-cpp/action-group-merger.cpp:25-36` | while live actions have distinct names no name conflict can arise |
| `ActionTallies.CountedAdd` | `src/menumodel-cpp/action-group-merger.cpp:41-45` | one more holder, one more count |
| `ActionTallies.CountedRemove` | `src/menumodel-cpp/action-group-merger.cpp:52-61` | one holder less, one count less, and no entry for zero |
| `ActionGroups.ActionGroup.AddToLeaf` | `src/menumodel-cpp/action-group.cpp:32-42` | adding an action to a leaf settles every merger above it |
| `ActionGroups.ActionGroup.RemoveFromLeaf` | `src/menumodel-cpp/action-group.cpp:44-54` | removing an action from a leaf, announced before it is erased, settles every merger above it |
| `Openvpn.DataRoundTrip` | `src/indicator/nmofono/vpn/openvpn-connection.cpp:225-437` | parsing printed settings over any earlier settings and printing again prints the same map; OpenvpnLaws.ParsePrinted says field by field what is parsed |
| `Openvpn.SecretsRoundTrip` | `src/indicator/nmofono/vpn/openvpn-connection.cpp:187-438` | followed by parsing the printed secrets, both maps print the same again |
| `Openvpn.ForeignFixedPoint` | `src/indicator/nmofono/vpn/openvpn-connection.cpp:783-825` | whatever map was parsed, what is printed from it is a fixed point of parsing and printing |
| `Openvpn.SecretsNotPrinted` | `src/indicator/nmofono/vpn/openvpn-connection.cpp:827-832` | parsing secrets never changes the printed settings |
| `Openvpn.SecretWriteKeepsData` | `src/indicator/nmofono/vpn/openvpn-connection.cpp:91-105` | writing a secret leaves the printed settings as they were |
| `Openvpn.DataWriteKeepsSecretsIff` | `src/indicator/nmofono/vpn/openvpn-connection.cpp:75-89` | writing a setting leaves the printed secrets as they were exactly if it keeps the connection type, and the proxy type or there is no proxy password |
| `Openvpn.SecretsPrintAlikeIff` | `src/indicator/nmofono/vpn/openvpn-connection.cpp:187-223` | settings with the same secret values print the same secrets exactly if they have the same connection type, and the same proxy type or no proxy password |
| `Openvpn.KeyNamesDistinct` | `src/indicator/nmofono/vpn/openvpn-connection.cpp:187-437` | different keys have different texts, so maps by key are maps by text |
| `Openvpn.BuildData` | `src/indicator/nmofono/vpn/openvpn-connection.cpp:225-437` | the map built step by step holds for every key what the specification prints, and nothing else; the rows on what is sent say what that is |
| `Openvpn.BuildSecrets` | `src/indicator/nmofono/vpn/openvpn-connection.cpp:187-223` | the secrets map holds for every key what the specification prints, and nothing else |
| `Openvpn.NamesRoundTrip` | `src/indicator/nmofono/vpn/openvpn-connection.cpp:225-437` | every printed choice of connection type, key direction, device, TLS side and proxy is read back as itself |
| `Openvpn.CipherRoundTrip` | `src/indicator/nmofono/vpn/openvpn-connection.cpp:588-623` | every printed cipher is read back as itself |
| `Openvpn.AuthRoundTrip` | `src/indicator/nmofono/vpn/openvpn-connection.cpp:625-655` | every printed digest is read back as itself |
| `OpenvpnLaws.ParsePrinted` | `src/indicator/nmofono/vpn/openvpn-connection.cpp:225-825` | read back over any earlier settings, every setting is as it was printed, except, field by field, where its connection type, its flag or the proxy type has no use for it |
| `OpenvpnLaws.ParseSecretsPrinted` | `src/indicator/nmofono/vpn/openvpn-connection.cpp:187-832` | every secret that connection type and proxy type use is read back, and nothing else changes |
| `OpenvpnLaws.BasicSent` | `src/indicator/nmofono/vpn/openvpn-connection.cpp:225-281` | the exact keys and values sent for each connection type, the two flag keys included |
| `OpenvpnLaws.TransportSent` | `src/indicator/nmofono/vpn/openvpn-connection.cpp:285-300` | port and renegotiation time are sent if they are set, and each flag as "yes" if it is on |
| `OpenvpnLaws.DeviceSent` | `src/indicator/nmofono/vpn/openvpn-connection.cpp:301-321` | the device is sent with its type, and the sizes if they are set |
| `OpenvpnLaws.SecuritySent` | `src/indicator/nmofono/vpn/openvpn-connection.cpp:322-375` | the last two flags, and cipher, key size and digest unless they are the default or not set |
| `OpenvpnLaws.TlsAuthSent` | `src/indicator/nmofono/vpn/openvpn-connection.cpp:379-403` | the TLS settings that are set, an empty key file as "/", and none of them for a static key |
| `OpenvpnLaws.ProxySent` | `src/indicator/nmofono/vpn/openvpn-connection.cpp:407-435` | type, server and port of a proxy, retrying if it is on, and the user name under the key of the type |
| `OpenvpnLaws.NoSecretSent` | `src/indicator/nmofono/vpn/openvpn-connection.cpp:225-437` | no secret is sent among the settings |
| `OpenvpnLaws.SecretsSent` | `src/indicator/nmofono/vpn/openvpn-connection.cpp:187-223` | the exact secrets sent for each connection type and proxy type |
| `OpenvpnLaws.OnlyNamesAreRead` | `src/indicator/nmofono/vpn/openvpn-connection.cpp:510-739` | a text that is no printed name reads as the default choice |
| `OpenvpnLaws.ParseForeign` | `src/indicator/nmofono/vpn/openvpn-connection.cpp:783-825` | what each choice, flag and number of settings stored by something else is read as |
| `OpenvpnLaws.BasicWrites` | `src/indicator/nmofono/vpn/openvpn-connection.cpp:75-105` | a write of a property of the connection changes that property alone, to the value given |
| `OpenvpnLaws.TransportWrites` | `src/indicator/nmofono/vpn/openvpn-connection.cpp:75-105` | the same for the properties of the transport |
| `OpenvpnLaws.DeviceWrites` | `src/indicator/nmofono/vpn/openvpn-connection.cpp:75-105` | the same for the properties of device and packets |
| `OpenvpnLaws.SecurityWrites` | `src/indicator/nmofono/vpn/openvpn-connection.cpp:75-105` | the same for the security properties |
| `OpenvpnLaws.TlsAuthWrites` | `src/indicator/nmofono/vpn/openvpn-connection.cpp:75-105` | the same for the TLS properties |
| `OpenvpnLaws.ProxyWrites` | `src/indicator/nmofono/vpn/openvpn-connection.cpp:75-105` | the same for the proxy properties |
| `Decimal.NumberToInt` | `src/indicator/nmofono/vpn/openvpn-connection.cpp:53-67` | reading a printed integer gives that integer, and 0 if it does not fit into 32 bits |
| `Decimal.NumberDigits` | `src/indicator/nmofono/vpn/openvpn-connection.cpp:285-321` | a number is printed digit by digit, the last one for the remainder by ten, behind a minus sign if it is negative |
| `Decimal.NumberToIntAround` | `src/indicator/nmofono/vpn/openvpn-connection.cpp:53-67` | white space around a number and a plus sign in front do not change what is read |
| `Decimal.OtherTextIsZero` | `src/indicator/nmofono/vpn/openvpn-connection.cpp:53-67` | a text with a character that no number is written with reads as 0 |
| `VpnSettings.OpenvpnConnection.UpdateData` | `src/indicator/nmofono/vpn/openvpn-connection.cpp:783-825` | the committed settings become what the specification parses, section by section |
| `VpnSettings.OpenvpnConnection.UpdateSecrets` | `src/indicator/nmofono/vpn/openvpn-connection.cpp:827-832` | the committed secrets become what the specification parses, which depends on the proxy type |
| `VpnSettings.OpenvpnConnection.Set` | `src/indicator/nmofono/vpn/openvpn-connection.cpp:75-105` | a write of the committed value is ignored; any other joins the pending settings and requests exactly their printed form |
| `Pptp.DataRoundTrip` | `src/indicator/nmofono/vpn/pptp-connection.cpp:162-242` | parsing printed settings over any earlier settings and printing again prints the same map |
| `Pptp.ParseInvertsPrintIff` | `src/indicator/nmofono/vpn/pptp-connection.cpp:162-242` | parsing inverts printing, apart from the password and an unused MPPE type, exactly if required MPPE comes with PAP, CHAP, EAP and some MSCHAP allowed, and stateful MPPE is required MPPE |
| `Pptp.LossyExample` | `src/indicator/nmofono/vpn/pptp-connection.cpp:162-242` | stateful MPPE without required MPPE is lost in print |
| `Pptp.ParsePrinted` | `src/indicator/nmofono/vpn/pptp-connection.cpp:162-377` | read back over any earlier settings, every setting is as it was printed, except, field by field, where required MPPE overrides it or MPPE is not in use |
| `Pptp.SecretsRoundTrip` | `src/indicator/nmofono/vpn/pptp-connection.cpp:150-160` | the printed password is read back, and the printed settings stay |
| `Pptp.WriteKeepsTheOther` | `src/indicator/nmofono/vpn/pptp-connection.cpp:75-105` | a settings write keeps the printed secrets, and a secret write the printed settings |
| `Pptp.BuildData` | `src/indicator/nmofono/vpn/pptp-connection.cpp:162-242` | the map built step by step holds for every key what the specification prints |
| `Pptp.KeyNamesDistinct` | `src/indicator/nmofono/vpn/pptp-connection.cpp:162-242` | different keys have different texts |
| `Pptp.AccountSent` | `src/indicator/nmofono/vpn/pptp-connection.cpp:162-176` | gateway, user and flag "1" are always sent, a domain if there is one, and for echo packets the interval "30" and the failure count "5" |
| `Pptp.RefusalsSent` | `src/indicator/nmofono/vpn/pptp-connection.cpp:187-212` | exactly the methods that are not allowed are refused, and with MPPE required only those of MSCHAP |
| `Pptp.MppeSent` | `src/indicator/nmofono/vpn/pptp-connection.cpp:214-221` | the key of the MPPE type, and statefulness, if MPPE is required and some MSCHAP is allowed |
| `Pptp.CompressionSent` | `src/indicator/nmofono/vpn/pptp-connection.cpp:223-234` | exactly the compressions that are off are sent, and never the password |
| `Pptp.ParseForeign` | `src/indicator/nmofono/vpn/pptp-connection.cpp:287-377` | what each key of settings stored by something else is read as, and which of the three MPPE keys goes first |
| `Pptp.WriteIsOneProperty` | `src/indicator/nmofono/vpn/pptp-connection.cpp:75-105` | a property write changes that property alone, to the value given |
| `VpnSettings.PptpConnection.UpdateMppe` | `src/indicator/nmofono/vpn/pptp-connection.cpp:287-326` | the three MPPE keys are read in their order of precedence, and the type is kept if none is set |
| `VpnSettings.PptpConnection.UpdateData` | `src/indicator/nmofono/vpn/pptp-connection.cpp:356-377` | the committed settings become what the specification parses |
| `VpnSettings.PptpConnection.Set` | `src/indicator/nmofono/vpn/pptp-connection.cpp:75-105` | a write of the committed value is ignored; any other joins the pending settings and requests exactly their printed form |
| `VpnConnections.VpnConnection.SetDirty` | `src/indicator/nmofono/vpn/vpn-connection.cpp:184-195` | the first write of a batch takes a snapshot of the settings, later ones keep the batch |
| `VpnConnections.VpnConnection.WritePending` | `src/indicator/nmofono/vpn/vpn-connection.cpp:217-227` | a batch is its snapshot with exactly the written keys replaced |
| `VpnConnections.VpnConnection.SetOpenvpn` | `src/indicator/nmofono/vpn/vpn-connection.cpp:407-408` | the pending settings are those before, or at the start of a batch the stored ones, with one entry replaced by the printed pending data; unwritten keys equal the settings of the first write, and a dirty plugin object means a dirty connection |
| `VpnConnections.VpnConnection.OpenvpnDataRequested` | `src/indicator/nmofono/vpn/vpn-connection.cpp:217-221` | a settings write replaces the data entry alone, and the batching invariant is kept |
| `VpnConnections.VpnConnection.OpenvpnSecretsRequested` | `src/indicator/nmofono/vpn/vpn-connection.cpp:223-227` | a secret write replaces the secrets entry alone, and the batching invariant is kept, current data entry included |
| `VpnConnections.VpnConnection.SecretsCurrentIff` | `src/indicator/nmofono/vpn/vpn-connection.cpp:217-227` | in any batch that wrote secrets, the pending secrets entry is what the pending data print as exactly if the connection type is the one at the last write of a secret, and the proxy type is too or there is no proxy password |
| `VpnConnections.VpnConnection.PasswordThenType` | `src/indicator/nmofono/vpn/vpn-connection.cpp:203-227` | any batch that writes a new password and then another connection type dispatches settings and secrets that do not fit |
| `VpnConnections.VpnConnection.IdThenFlag` | `src/indicator/nmofono/vpn/vpn-connection.cpp:184-215` | a dispatched id is in the next dispatch, of another key, exactly as far as the settings that arrived in between hold it |
| `VpnConnections.VpnConnection.IdReturns` | `src/indicator/nmofono/vpn/vpn-connection.cpp:203-289` | an id that is written and dispatched is the id of the connection once the settings that were sent arrive |
| `VpnConnections.VpnConnection.NeverDefaultReturns` | `src/indicator/nmofono/vpn/vpn-connection.cpp:203-289` | the same for the flag |
| `VpnConnections.VpnConnection.OpenvpnReturns` | `src/indicator/nmofono/vpn/vpn-connection.cpp:203-289` | once the settings that were sent arrive, the OpenVPN data are what parsing the printed pending data gives, and print as those |
| `VpnConnections.VpnConnection.OpenvpnSecretReturns` | `src/indicator/nmofono/vpn/vpn-connection.cpp:203-255` | once the secrets that were sent are stored, the OpenVPN data hold what parsing the printed pending secrets gives |
| `VpnConnections.VpnConnection.PptpReturns` | `src/indicator/nmofono/vpn/vpn-connection.cpp:203-289` | once the settings that were sent arrive, the PPTP data are what parsing the printed pending data gives, and print as those |
| `VpnConnections.VpnConnection.SetPptp` | `src/indicator/nmofono/vpn/vpn-connection.cpp:416-417` | as for OpenVPN, and both entries always stay what the pending data print as |
| `VpnConnections.VpnConnection.SetId` | `src/indicator/nmofono/vpn/vpn-connection.cpp:464-473` | a new id is the one entry replaced over the pending or stored settings; the committed id changes nothing |
| `VpnConnections.VpnConnection.SetNeverDefault` | `src/indicator/nmofono/vpn/vpn-connection.cpp:475-485` | the flag is replaced for both address families over the pending or stored settings; the committed flag changes nothing |
| `VpnConnections.VpnConnection.DispatchPendingSettings` | `src/indicator/nmofono/vpn/vpn-connection.cpp:203-215` | exactly the pending settings are sent, and connection and plugin object are clean afterwards |
| `VpnConnections.VpnConnection.SettingsUpdated` | `src/indicator/nmofono/vpn/vpn-connection.cpp:257-289` | a reply replaces the settings; the id becomes the text stored under "id", the connection is valid exactly if the text under "type" is "vpn", and then the stored data map is parsed; a batch under way goes on, and an error changes nothing at all |
| `VpnConnections.VpnConnection.SecretsUpdated` | `src/indicator/nmofono/vpn/vpn-connection.cpp:229-255` | the stored secrets map is parsed for valid connections only, without disturbing a batch under way |
| `VpnManagement.VpnManager.UpdateActiveAndBusy` | `src/indicator/nmofono/vpn/vpn-manager.cpp:130-153` | afterwards the state is settled, which SettledMeans and ShownGoesFirst spell out |
| `VpnManagement.VpnManager.SetBusy` | `src/indicator/nmofono/vpn/vpn-manager.cpp:155-164` | after the broadcast every connection has the value, and its activatable flag follows |
| `VpnManagement.VpnManager.SetActiveConnectionPath` | `src/indicator/nmofono/vpn/vpn-manager.cpp:166-175` | after the broadcast every connection has the value, and its activatable flag follows |
| `VpnManagement.VpnManager.NewConnection` | `src/indicator/nmofono/vpn/vpn-manager.cpp:45-67` | a valid connection is entered under its path and told the current values; the settled state is kept |
| `VpnManagement.VpnManager.LoadConnections` | `src/indicator/nmofono/vpn/vpn-manager.cpp:202-206` | exactly the valid connections found are entered, one per path, and settled at the end |
| `VpnManagement.VpnManager.ConnectionRemoved` | `src/indicator/nmofono/vpn/vpn-manager.cpp:98-106` | exactly the connection with the path goes, and the state settles; an unknown path changes nothing |
| `VpnManagement.VpnManager.ConnectionUpdated` | `src/indicator/nmofono/vpn/vpn-connection.cpp:45-80` | a connection is active while activating or activated, and busy while activating, deactivating or deactivated, and the manager settles after each of the two signals |
| `VpnManagement.VpnManager.ConnectionGone` | `src/indicator/nmofono/vpn/vpn-connection.cpp:316-321` | without an active connection object both flags are off, and the manager settles |
| `VpnManagement.VpnManager.AloneUpdated` | `src/indicator/nmofono/vpn/vpn-connection.cpp:45-80` | which path is shown and which connections can be activated after each state of one connection, while all others are idle |
| `VpnManagement.VpnManager.ActivationLife` | `src/indicator/nmofono/vpn/vpn-connection.cpp:45-80` | over the life of one activation nothing can be activated while it comes up, only that connection while it is up, nothing while it goes down, and everything once it is gone |
| `VpnManagement.VpnManager.SwitchConnection` | `src/indicator/nmofono/vpn/vpn-connection.cpp:444-462` | switching on takes effect at once and settles, switching off only asks |
| `VpnManagement.FirstActiveIsLeast` | `src/indicator/nmofono/vpn/vpn-manager.cpp:144-153` | the active path is that of the first active connection in path order, and empty exactly if there is none |
| `VpnManagement.SettledMeans` | `src/indicator/nmofono/vpn/vpn-manager.cpp:130-175` | the manager is busy exactly if some connection is; its path is that of an active connection, or empty if there is none; and a connection can be activated exactly if nobody is busy and nobody else is shown |
| `VpnManagement.ShownGoesFirst` | `src/indicator/nmofono/vpn/vpn-manager.cpp:144-153` | the path shown ends first, or has the smaller character, where it parts from the path of any other active connection |
| `VpnManagement.ActivatableTrichotomy` | `src/indicator/nmofono/vpn/vpn-connection.cpp:165-171` | in a settled state none, all, or exactly the first active connection can be activated, according to busy, idle, or active and not busy |
| `VpnManagement.NewConnectionName` | `src/indicator/nmofono/vpn/vpn-manager.cpp:79-90` | the search ends after at most one more candidate than there are ids, with the smallest unused number |
| `VpnManagement.NamesBelowSize` | `src/indicator/nmofono/vpn/vpn-manager.cpp:79-90` | the candidates tried are pairwise different, so their number is their count |
| `VpnManagement.NumberedNameInjective` | `src/indicator/nmofono/vpn/vpn-manager.cpp:81-84` | different numbers give different names, whatever text surrounds the number |
| `AccessPoints.WifiLink.ApAdded` | `src/indicator/nmofono/wifi/wifi-link-impl.cpp:228-266` | a new access point, with the key and strength of the reply and never connected, joins the group of its key, whose cached strength becomes the larger of the two; a known path or a failed proxy changes nothing; the groups still split the access points by key and the published set is the map |
| `AccessPoints.WifiLink.TwoAppear` | `src/indicator/nmofono/wifi/grouped-access-point.cpp:49-68` | the group of a new network caches the strength of its first member, or 0 if that is more, and then that of the second if it is more still |
| `AccessPoints.WifiLink.GroupsMean` | `src/indicator/nmofono/wifi/wifi-link-impl.cpp:251-315` | every access point is in exactly one published group, two are in the same one exactly if their keys are equal, no group is empty, and nothing is announced while disconnecting |
| `AccessPoints.WifiLink.ApRemoved` | `src/indicator/nmofono/wifi/wifi-link-impl.cpp:268-297` | exactly the access point with the path leaves, an emptied group leaves the map, an unknown path changes nothing; the split and the published set are kept |
| `AccessPoints.WifiLink.UpdateGroupedAccessPoints` | `src/indicator/nmofono/wifi/wifi-link-impl.cpp:299-315` | the published set is exactly the values of the map, and what is announced is that or nothing while disconnecting |
| `AccessPoints.WifiLink.SetDisconnectWifi` | `src/indicator/nmofono/wifi/wifi-link-impl.cpp:541-561` | the announced set follows the flag |
| `AccessPoints.SizesAddUp` | `src/indicator/nmofono/wifi/wifi-link-impl.cpp:251-258` | the sizes of the groups add up to the number of access points |
| `AccessPoints.JoinedSplits` | `src/indicator/nmofono/wifi/wifi-link-impl.cpp:251-258` | one more access point under its key keeps the split |
| `AccessPoints.LeftSplits` | `src/indicator/nmofono/wifi/wifi-link-impl.cpp:284-295` | one access point less, with its emptied group, keeps the split |
| `AccessPoints.WifiLink.StrengthUpdated` | `src/indicator/nmofono/wifi/grouped-access-point.cpp:66` | a strength report of a member, of any sign, keeps every group near its maximum, or near 0 while no strength exceeds 0 |
| `AccessPoints.WifiLink.LastConnectedUpdated` | `src/indicator/nmofono/wifi/grouped-access-point.cpp:67` | a report of a last connection moves only the time of that group, never back, and the time covers it |
| `AccessPoints.WifiLink.WholeIsExact` | `src/indicator/nmofono/wifi/grouped-access-point.cpp:49-130` | while all strengths are whole numbers every group caches its maximum, or 0 if that is more; without negative strengths it caches exactly its maximum |
| `AccessPoints.GroupedAccessPoint.AddAp` | `src/indicator/nmofono/wifi/grouped-access-point.cpp:49-68` | another name is refused; otherwise the member is last, and the cached strength and time are those of the larger group |
| `AccessPoints.GroupedAccessPoint.RemoveAp` | `src/indicator/nmofono/wifi/grouped-access-point.cpp:70-88` | the members with the path leave; the rebuilt cache is the maximum of the others or 0, whichever is more, so it is their maximum exactly if that is not negative; the latest time stays |
| `AccessPoints.GroupedAccessPoint.UpdateStrength` | `src/indicator/nmofono/wifi/grouped-access-point.cpp:120-130` | the cached strength ends within a hundredth of the maximum, and is the maximum whenever it was further off |
| `AccessPoints.GroupedAccessPoint.UpdateLastTime` | `src/indicator/nmofono/wifi/grouped-access-point.cpp:112-118` | the cached time is the latest of all times ever seen, or the epoch |
| `AccessPoints.GreatestIsMaximum` | `src/indicator/nmofono/wifi/grouped-access-point.cpp:122-126` | the specification of the maximum is an upper bound that some member reaches |
| `AccessPoints.MaxStrengthIsFloored` | `src/indicator/nmofono/wifi/grouped-access-point.cpp:60-63` | adding members one by one to an empty group caches their maximum or 0, whichever is more |
| `AccessPoints.GroupedAccessPoint.CachedMeans` | `src/indicator/nmofono/wifi/grouped-access-point.cpp:49-130` | the cached strength is within a hundredth of that of some strongest member, or of 0 if none exceeds 0; the cached time covers every member |
| `AccessPoints.GroupedAccessPoint.ExactMeans` | `src/indicator/nmofono/wifi/grouped-access-point.cpp:70-88` | a rebuilt cache is the strength of some member, or 0, and no member has more |
| `AccessPoints.StrongerLeaves` | `src/indicator/nmofono/wifi/grouped-access-point.cpp:70-88` | after the stronger of two members leaves, the cache is the strength of the other or 0, and is the maximum exactly if that is not negative |
| `SimUnlock.LawfulThroughout` | `src/indicator/sim-unlock-dialog.cpp:351-382` | in any run, whatever was sent at any moment was called for by the entries made until then |
| `SimUnlock.ResetCarriesEntries` | `src/indicator/sim-unlock-dialog.cpp:351-382` | in any run, before every PIN reset sent stand, in order, the beginning of a session with the modem it is sent to, an entry of its PUK and two entries of its new PIN; the session has not ended, since that PUK entry no PUK was rejected and no other was entered, and nothing was entered after the two |
| `SimUnlock.PinWasEntered` | `src/indicator/sim-unlock-dialog.cpp:357-360` | in any run, a PIN that is sent is the last entry made, in the PIN step of a session that began with the modem it is sent to and has not ended |
| `SimUnlock.BeginsWhenFree` | `src/indicator/sim-unlock-dialog.cpp:425-435` | in any run, a session begins only after every earlier one has ended |
| `SimUnlock.ResetRepeatsEntries` | `src/indicator/sim-unlock-dialog.cpp:371-380` | a PIN reset names the last PUK entered in the attempt, and after that PUK the same new PIN was entered twice, and last |
| `SimUnlock.SimUnlockDialog.PinEntered` | `src/indicator/sim-unlock-dialog.cpp:351-382` | the next step and the calls made, for each step and for matching and differing PINs |
| `SimUnlock.SimUnlockDialog.OnResetPinFailed` | `src/indicator/sim-unlock-dialog.cpp:228-242` | a rejected PUK leads back to the PUK step with PUK and new PIN forgotten |
| `SimUnlock.SimUnlockDialog.Update` | `src/indicator/sim-unlock-dialog.cpp:255-278` | the PIN step becomes the PUK step exactly if the modem asks for the PUK |
| `SimUnlock.SimUnlockDialog.Reset` | `src/indicator/sim-unlock-dialog.cpp:390-414` | no modem, ready and initial go together again, also if the ready signal starts the next session from within; only the front of the queue is taken |
| `SimUnlock.SimUnlockDialog.Unlock` | `src/indicator/sim-unlock-dialog.cpp:425-492` | a session begins only if there is none; a modem without a PIN ends it at once |
| `SimUnlock.SimUnlockDialog.Deliver` | `src/indicator/sim-unlock-dialog.cpp:451-456` | only the modem at work is heard, and each of its signals has its effect, the step from PIN to PUK included |
| `SimUnlock.SimUnlockDialog.Cancelled` | `src/indicator/sim-unlock-dialog.cpp:384-388` | cancelling ends the session and serves the queue |
| `SimUnlock.SimUnlockDialog.PinSuccess` | `src/indicator/sim-unlock-dialog.cpp:210-214` | success ends the session and serves the queue |
| `SimUnlock.SimUnlockDialog.ValidMeans` | `src/indicator/sim-unlock-dialog.cpp:390-492` | between events the dialog is ready exactly if it has no modem, and listens to its modem alone, for every signal |
| `SimUnlock.UnlockManager.QueueMeans` | `src/indicator/nmofono/manager-impl.cpp:343-410` | nobody waits twice, all that wait are known, and they wait in the order in which they joined, after all that were served |
| `SimUnlock.UnlockManager.SimUnlockReady` | `src/indicator/nmofono/manager-impl.cpp:343-354` | the front of the queue is served, and begins a session exactly if it needs a PIN |
| `SimUnlock.UnlockManager.UnlockModem` | `src/indicator/nmofono/manager-impl.cpp:812-849` | an unknown, busy or waiting modem is ignored; with a free dialog and an empty queue it is unlocked if its SIM status is known and it needs a PIN or PUK, and otherwise asked to announce itself; else it joins the end of the queue |
| `SimUnlock.UnlockManager.UnlockAllModems` | `src/indicator/nmofono/manager-impl.cpp:851-859` | afterwards every modem is at work, waits, or will announce itself |
| `SimUnlock.UnlockManager.ModemsChanged` | `src/indicator/nmofono/manager-impl.cpp:365-410` | the queue keeps, in order, exactly the modems whose names are still known; the session at work goes on |
| `SimUnlock.UnlockManager.FireUpdate` | `src/indicator/nmofono/wwan/modem.cpp:160-170` | a modem that announces itself is at work or waits afterwards, and no longer announces itself; any other changes nothing |
| `MobileData.OneAtEveryInstant` | `src/indicator/nmofono/manager-impl.cpp:412-476` | at every moment of a run data was switched on for at most one SIM |
| `MobileData.OnIsLastWrite` | `src/indicator/nmofono/manager-impl.cpp:412-476` | the SIMs counted as on are those whose last write switched data on |
| `MobileData.MobileDataManager.OnlySelectedIsOn` | `src/indicator/nmofono/manager-impl.cpp:412-476` | a SIM whose last write switched data on is the selected one |
| `MobileData.MobileDataManager.InEffectMeans` | `src/indicator/nmofono/manager-impl.cpp:412-476` | data is in effect exactly if no SIM is selected, or the last write to the selected one is as enabled |
| `MobileData.FindSimIsFirst` | `src/indicator/nmofono/manager-impl.cpp:145-157` | no SIM is found exactly if none has the path, and otherwise the first that has it |
| `MobileData.FindIccidIsFirst` | `src/indicator/nmofono/manager-impl.cpp:264-276` | no SIM is found exactly if none has the id, and otherwise the first that has it |
| `MobileData.MobileDataManager.SetMobileDataEnabled` | `src/indicator/nmofono/manager-impl.cpp:412-442` | only the selected SIM is ever switched on, and every held SIM is switched off on disabling; after any call data is in effect exactly if no SIM is selected, the SIM already was as wanted, or the call was not ignored and a ready modem holds it |
| `MobileData.MobileDataManager.SetSimForMobileData` | `src/indicator/nmofono/manager-impl.cpp:444-476` | the SIM before is off, and the new one is on exactly if data is enabled |
| `MobileData.MobileDataManager.InitialDataOnSet` | `src/indicator/nmofono/manager-impl.cpp:189-209` | on a first run the first SIM with data on is selected and data enabled; later reports change nothing |
| `MobileData.MobileDataManager.MatchModemsAndSims` | `src/indicator/nmofono/manager-impl.cpp:140-168` | every modem gets the first SIM with its path or none; a matched SIM with data on ends the pending state from within the loop, and without a pending state nothing else changes |
| `MobileData.MobileDataManager.CheckSimForMobileData` | `src/indicator/nmofono/manager-impl.cpp:111-138` | with no selected SIM present, the SIM of a modem is selected if no other modem holds one, and nothing changes if several or none do |
| `MobileData.MobileDataManager.SimAdded` | `src/indicator/nmofono/manager-impl.cpp:170-187` | the saved SIM is selected when it appears |
| `MobileData.MobileDataManager.LoadSettings` | `src/indicator/nmofono/manager-impl.cpp:242-284` | saved values, enabled or not and which SIM, are taken up, missing ones are left pending |
| `MobileData.EnablingAgainMissesSim` | `src/indicator/nmofono/manager-impl.cpp:413-416` | data stays off when a modem with the SIM becomes ready, since enabling once more is ignored |
| `MobileData.EnablingMissesSim` | `src/indicator/nmofono/manager-impl.cpp:423-432` | enabling data for a selected SIM that no modem holds leaves it off |
| `ListModel.VpnConnectionsListModel.UpdatePaths` | `src/connectivity-api/connectivity-qt/connectivityqt/vpn-connections-list-model.cpp:50-117` | the announced row changes turn the old list into the new one, which shows exactly the requested paths, each once: the rows that stay, in order, and behind them new ones of the kinds given |
| `ListModel.VpnConnectionsListModel.RemovePaths` | `src/connectivity-api/connectivity-qt/connectivityqt/vpn-connections-list-model.cpp:68-83` | the loop with its running row index announces every removal with the row it has at that moment |
| `ListModel.VpnConnectionsListModel.AddPaths` | `src/connectivity-api/connectivity-qt/connectivityqt/vpn-connections-list-model.cpp:85-116` | the new rows are announced as one group that is exactly what is appended |
| `ListModel.SurvivingPaths` | `src/connectivity-api/connectivity-qt/connectivityqt/vpn-connections-list-model.cpp:68-83` | removing rows by path leaves exactly the other paths, still without duplicates |
| `ListModel.RemovalMeans` | `src/connectivity-api/connectivity-qt/connectivityqt/vpn-connections-list-model.cpp:73-78` | an announced removal names rows that are there, and the rows behind them move up |
| `ListModel.InsertionMeans` | `src/connectivity-api/connectivity-qt/connectivityqt/vpn-connections-list-model.cpp:89-115` | an announced insertion puts its rows where it says, and the rows behind them move down |
| `ListModel.ReplayedMeans` | `src/connectivity-api/connectivity-qt/connectivityqt/vpn-connections-list-model.cpp:50-117` | an observer applies each announced change to what the ones before it left |

## Left out

- `ManagerImpl` is two classes here, `UnlockManager` and `MobileDataManager`, which share no field but the modems; a change of the modems is one step of each.
- D-Bus proxies, adaptors and pending calls, QSettings, timers and GLib internals: replies and stored values are arguments or fields, and the expiry of a timer is a call.
- Popups, error texts, titles, retry counters and the closing of the notification in the SIM dialog, which do not affect the PIN state.
- `Menu::moveTo`, which uses an iterator after erasing it.
- MenuModel.MenuMerger.Append: the menu is not attached to this or another merger yet; several attachments to one merger are marked as open in the code, and mergers form a tree here.
- MenuModel.Menu.Insert: only identity and position of items; the code never connects the changed signal of items inserted this way, so their contents may be out of date.
- MenuModel.GMenu.EmitItemsChanged: trees of menus are acyclic with depths fixed at construction, since a menu inside itself would not terminate.
- WifiMenu.WifiLinkItem.UpdateAccessPoints: an access point item is two map entries, its menu item and its action state; the registration of its action group and upper-casing itself are not part of this model.
- ActionGroups.ActionGroupMerger.AddGroup: networks of groups are acyclic with depths fixed at construction, and live actions have distinct names; the prefix of a merger is unused in the code.
- ActionGroups.ActionGroupMerger.RemoveAction: in a network, a counted action is withdrawn only by a group for which it was counted, as distinct names ensure; withdrawals after a name conflict are covered for one merger, by the runs of `ActionTallies`.
- Property-changed notifications of the VPN objects, and the one-by-one D-Bus properties built on them.
- Openvpn.BuildData: maps have the known keys only; the code never reads any other key of a parsed map and never keeps one.
- VpnSettings.OpenvpnConnection.Set: a write of the committed value is ignored even while another value is pending, as in the code, so the last write need not win.
- VpnConnections.VpnConnection.SettingsUpdated: entries that reading a missing key with `QMap::operator[]` inserts are not part of this model, nor is a change of the service type after construction.
- VpnManagement.VpnManager.NewConnection: a connection object replaced under the same path stays connected to signals in the code; only the entered one is modelled.
- VpnManagement.NewConnectionName: the counter is unbounded; the code's counter is a 32-bit integer.
- AccessPoints.WifiLink.StrengthUpdated: strengths are real numbers rather than bytes and converted bytes; whether the active access point of the link is still in the published set, and the coarse signal level, which both may be out of date in the code.
- SimUnlock.UnlockManager.SimUnlockReady: no promise that the queue is ever emptied; the code takes a modem that needs no PIN off the queue without starting the next.
- SimUnlock.SimUnlockDialog.PinEntered: an entry while the dialog is initial is ignored; the code asserts that it cannot happen and then ignores it.
- SimUnlock.UnlockManager.FireUpdate: a signal of a modem that is already forgotten is ignored; the code would insert an empty entry under its name.
- MobileData.MobileDataManager.LoadSettings: an unknown saved SIM is deselected while its id stays saved, so the saved id and the selection may differ.
- MobileData.MobileDataManager.MatchModemsAndSims: SIM reports may arrive for any SIM, not only for those whose signal was connected.
- ListModel.VpnConnectionsListModel.UpdatePaths: data-changed notifications and the remote properties of the connections.
- Hotspots, flight mode, kill switches, URL dispatching, the power daemon and the generated D-Bus code: thin glue without derived state.
