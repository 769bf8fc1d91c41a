# kontext: kubeconfig editing and picker ordering, in Dafny

kontext is a command-line tool that lists, switches and deletes the contexts
of a Kubernetes client configuration file (a "kubeconfig"), and shows and
sets the namespace of a context. This project models its two cores:

- **The kubeconfig editing engine** (`pkg/kubeconfig/kubeconfig.go`). The
  document has a current-context name (`""` means unset), a map of contexts
  (each naming a cluster, a set of credentials called an auth-info, and a
  namespace), a map of clusters and a map of auth-infos. Every operation
  loads the document, checks it, edits it in memory and writes it back. The
  model keeps the check-and-edit step:
  - `Kubeconfig.Config` is the loaded document, a class whose fields are
    the four parts. `SwitchContext`, `DeleteContext`, `SetNamespaceForContext`
    and `SetNamespace` edit it in place.
  - Each method is proved against a pure function from the document before
    to the document after (`Switched`, `Deleted`, `WithNamespace`), through
    `Committed`. On success the new document is kept. On an error the
    document is left as it was, as when the source returns before writing.
  - Deleting a context removes its cluster and auth-info only when a rescan
    of the remaining contexts finds no other user. The rescans are the
    loop methods `IsClusterReferenced` and `IsAuthInfoReferenced`.
  - Namespace reads (`GetNamespaceForContext`, `GetCurrentNamespace`) and
    the validation and offline fallback of namespace listing
    (`GetNamespacesForContext`) are pure functions of the document.
- **The ordering of picker choices** (`pkg/ui/ui.go`). `SortContexts` and
  `SortNamespaces` copy the input into a fresh array and sort the copy in
  place. If asked, they then move the first occurrence of the current name
  to the front. The input array is never modified: no method has it in its
  `modifies` clause. Each is proved equal to the pure `Ui.Order`. Its
  contract gives the permutation, sortedness and current-first properties,
  and `OrderCharacterized` shows that these properties determine it. The
  picker cursor is the first position of the current name, or 0.

Go's `sort.Strings` compares strings byte by byte. The model
(`StringOrder.AtMost`) compares them by character code point, which gives
the same order as the bytes whenever the strings are valid UTF-8. `scenarios.dfy` replays the package tests'
fixture as lemmas. It also replays every case of the ui table for sorting
contexts; the namespace table repeats those cases and adds the one listed
under "## Left out".

## Model

| member | source | states |
|---|---|---|
| `StringOrder.AtMostReflexive` | pkg/ui/ui.go:187 | every string sorts no later than itself |
| `StringOrder.AtMostTotal` | pkg/ui/ui.go:187 | any two strings are comparable under the code-point order (Go's byte order on valid UTF-8) |
| `StringOrder.AtMostAntisymmetric` | pkg/ui/ui.go:187 | two strings that each sort no later than the other are equal |
| `StringOrder.AtMostTransitive` | pkg/ui/ui.go:187 | the code-point order (Go's byte order on valid UTF-8) is transitive |
| `StringOrder.SortedCopy` | pkg/ui/ui.go:186-187 | the ascending rearrangement of a list is sorted, has the same multiset of elements and the same length |
| `StringOrder.SortedUnique` | pkg/ui/ui.go:186-187 | two sorted lists with the same multiset of elements are equal, so sorting has exactly one result |
| `StringOrder.SortedPermutationIsSortedCopy` | pkg/ui/ui.go:186-187 | any sorted permutation of a list is its SortedCopy |
| `Ui.FirstIndex` | pkg/ui/ui.go:193-194 | the index of the first element equal to x: it holds x, no earlier element does, and it is the length exactly when x is absent |
| `Ui.SortedWithout` | pkg/ui/ui.go:196 | removing one element from a sorted list leaves it sorted |
| `Ui.LiftFirst` | pkg/ui/ui.go:193-198 | moving the first occurrence of x to the front keeps the length and the multiset, puts x first, and the rest is the list less one x and stays sorted if the list was |
| `Ui.Order` | pkg/ui/ui.go:176-209 | the picker order is a permutation of the input; empty stays empty; it is sorted unless the current name is to be lifted; if it is lifted, it is first and the rest is sorted and is the input less one occurrence of it |
| `Ui.OrderCharacterized` | pkg/ui/ui.go:176-209 | any permutation of the input that is sorted, or that has the current name first and a sorted rest when the name is to be lifted, is exactly Order's result |
| `Ui.FindFirst` | pkg/ui/ui.go:193-201 | the search loop stops at the first element equal to x, or at the end: its result is FirstIndex |
| `Ui.SortStrings` | pkg/ui/ui.go:187 | the in-place sort leaves the array sorted and a permutation of what it held |
| `Ui.MoveToFront` | pkg/ui/ui.go:196-198 | after the splice the array is the element at i followed by the elements before i and then those after i |
| `Ui.SortedArrayCopy` | pkg/ui/ui.go:182-187 | the copy is a fresh array holding the ascending rearrangement of the input |
| `Ui.LiftCurrent` | pkg/ui/ui.go:190-201 | the current name is found exactly when it occurs; if found the array becomes LiftFirst of its old contents, otherwise it is unchanged |
| `Ui.SortPrioritized` | pkg/ui/ui.go:176-209 | the result is Order of the input; the not-found note is raised exactly when a non-empty current name was to be lifted from a non-empty list that lacks it |
| `Ui.SortContexts` | pkg/ui/ui.go:176-209 | context names come out in Order; the not-found note is raised exactly when the current context is to be lifted but is absent from a non-empty list |
| `Ui.SortNamespaces` | pkg/ui/ui.go:214-247 | the same contract as SortContexts, for namespace names |
| `Ui.CursorPosition` | pkg/ui/ui.go:119-129 | the cursor is a valid index of a non-empty list, holds the current name if it occurs with no earlier occurrence, and is 0 if it does not occur; the note is raised exactly when a non-empty current name is absent from a non-empty list |
| `Ui.ContextSelectorCursor` | pkg/ui/ui.go:119-129 | the context picker's cursor has CursorPosition's contract |
| `Ui.NamespaceSelectorCursor` | pkg/ui/ui.go:151-161 | the namespace picker's cursor has CursorPosition's contract |
| `Kubeconfig.KubeConfigPath` | pkg/kubeconfig/kubeconfig.go:28-33 | the path is never empty; it is the KUBECONFIG value when that is non-empty, otherwise it is `HOME/.kube/config`, with no `/` added when HOME is empty or already ends in `/` |
| `Kubeconfig.ShownNamespace` | pkg/kubeconfig/kubeconfig.go:197-202 | a shown namespace is never empty: it is the stored field when that is non-empty and `default` when it is empty |
| `Kubeconfig.GetNamespaceForContext` | pkg/kubeconfig/kubeconfig.go:186-203 | fails with not-found exactly when the context is missing; otherwise the result is non-empty and is the stored namespace, or "default" when that is empty |
| `Kubeconfig.GetCurrentNamespace` | pkg/kubeconfig/kubeconfig.go:161-183 | fails with no-current-context when the current context is unset and with current-context-missing when it names no context; otherwise it equals GetNamespaceForContext of the current context |
| `Kubeconfig.ResolveContext` | pkg/kubeconfig/kubeconfig.go:219-231 | an empty name means the current context; resolution succeeds exactly when that name is set and names a context; the result is that non-empty name; otherwise the error is no-current-context or not-found for the resolved name |
| `Kubeconfig.GetNamespacesForContext` | pkg/kubeconfig/kubeconfig.go:255-311 | fails exactly when ResolveContext fails, with its error; after that the result is the listed names when the cluster answers and the fallback list on any of the three connection failures |
| `Kubeconfig.GetNamespaces` | pkg/kubeconfig/kubeconfig.go:249-251 | fails exactly when the current context is unset or dangling; it is GetNamespacesForContext for the empty name |
| `Kubeconfig.Switched` | pkg/kubeconfig/kubeconfig.go:64-86 | succeeds exactly when the name is a context, else not-found; on success only the current context changes, to the name; switching to the current context gives the same document |
| `Kubeconfig.Deleted` | pkg/kubeconfig/kubeconfig.go:92-158 | succeeds exactly when the name is a context, else not-found. On success exactly that context is removed and the others are untouched, and the current context becomes "" if it was the deleted one and is unchanged otherwise. Only the deleted context's cluster and auth-info can go, and an existing one is removed exactly when it is non-empty and no remaining context uses it. All kept entries are unchanged |
| `Kubeconfig.WithNamespace` | pkg/kubeconfig/kubeconfig.go:212-243 | fails exactly when ResolveContext fails, with its error; on success only the resolved context's namespace changes, to the given value (possibly ""), and everything else is kept |
| `Kubeconfig.SwitchedPreservesWellFormed` | pkg/kubeconfig/kubeconfig.go:72-77 | switching keeps a document well-formed: the current context is unset or exists, and every non-empty reference resolves |
| `Kubeconfig.WithNamespacePreservesWellFormed` | pkg/kubeconfig/kubeconfig.go:228-234 | setting a namespace keeps a document well-formed |
| `Kubeconfig.DeletedPreservesWellFormed` | pkg/kubeconfig/kubeconfig.go:109-150 | deletion keeps a document well-formed: it never leaves a dangling current context and never prunes a cluster or auth-info a remaining context uses |
| `Kubeconfig.DeletedLeavesNoNewOrphans` | pkg/kubeconfig/kubeconfig.go:117-150 | a cluster or auth-info left without users after a deletion had no users before it |
| `Kubeconfig.SetThenGetNamespace` | pkg/kubeconfig/kubeconfig.go:212-234 | after setting a namespace, reading the resolved context gives it back, or "default" for ""; for the current context GetCurrentNamespace gives the same |
| `Kubeconfig.ListingValidatesLikeSetting` | pkg/kubeconfig/kubeconfig.go:262-273 | namespace listing rejects exactly the context names that setting a namespace rejects, with the same error |
| `Kubeconfig.Config.constructor` | pkg/kubeconfig/kubeconfig.go:36-43 | the object holds the loaded document |
| `Kubeconfig.Config.SwitchContext` | pkg/kubeconfig/kubeconfig.go:64-86 | commits Switched of the document before: on success the new document and nil, on error the error and the document untouched |
| `Kubeconfig.Config.IsClusterReferenced` | pkg/kubeconfig/kubeconfig.go:118-128 | the rescan answers true exactly when the name is non-empty and some context uses it as its cluster |
| `Kubeconfig.Config.IsAuthInfoReferenced` | pkg/kubeconfig/kubeconfig.go:130-140 | the rescan answers true exactly when the name is non-empty and some context uses it as its auth-info |
| `Kubeconfig.Config.DeleteContext` | pkg/kubeconfig/kubeconfig.go:92-158 | commits Deleted of the document before |
| `Kubeconfig.Config.SetNamespaceForContext` | pkg/kubeconfig/kubeconfig.go:212-243 | commits WithNamespace of the document before |
| `Kubeconfig.Config.SetNamespace` | pkg/kubeconfig/kubeconfig.go:206-208 | commits WithNamespace for the empty context name, so it is SetNamespaceForContext("", ns) |
| `Scenarios.SwitchScenarios` | pkg/kubeconfig/kubeconfig_test.go:189-242 | on the test fixture, in the table's order on one shared file: switching to context2 succeeds, to a missing name fails, and back to context1 restores the fixture; switching to the context already current changes nothing |
| `Scenarios.DeleteExclusiveScenario` | pkg/kubeconfig/kubeconfig_test.go:259-268 | deleting context2 removes cluster2 and user2 and keeps context1 current |
| `Scenarios.DeleteCurrentScenario` | pkg/kubeconfig/kubeconfig_test.go:269-278 | deleting the current context1 unsets the current context and keeps both clusters and both auth-infos |
| `Scenarios.DeleteSharedScenario` | pkg/kubeconfig/kubeconfig_test.go:279-288 | deleting context3 keeps cluster1 and user1, which context1 still uses |
| `Scenarios.DeleteMissingScenario` | pkg/kubeconfig/kubeconfig_test.go:289-294 | deleting a missing context fails with not-found |
| `Scenarios.NamespaceScenarios` | pkg/kubeconfig/kubeconfig_test.go:381-449 | the fixture's namespace reads: namespace1, "default" for context2's empty field, not-found for a missing context |
| `Scenarios.SetNamespaceForContextScenarios` | pkg/kubeconfig/kubeconfig_test.go:525-564 | in the table's order: setting context2's namespace reads back, a missing context fails with not-found, and setting through the empty name writes the current context1 |
| `Scenarios.SharedClusterScenario` | pkg/kubeconfig/kubeconfig.go:117-150 | with three contexts on one cluster, deleting two keeps the cluster and deleting the third removes it |
| `Scenarios.ConfigScenario` | pkg/kubeconfig/kubeconfig_test.go:466-523 | through the `Config` object: setting the current context's namespace reads back, an empty namespace reads back as `default`, deleting the current context succeeds, leaves the current context unset, context2 and context3, and both clusters (cluster1 is still used by context3), and deleting it again fails with not-found |
| `Scenarios.OrderWithoutPriorityScenario` | pkg/ui/ui_test.go:15-21 | zebra, alpha, beta without prioritising orders as alpha, beta, zebra |
| `Scenarios.OrderWithPriorityScenario` | pkg/ui/ui_test.go:22-28 | zebra, alpha, beta with current beta prioritised orders as beta, alpha, zebra |
| `Scenarios.OrderCurrentAbsentScenario` | pkg/ui/ui_test.go:36-42 | a current name that is absent leaves the plain ascending order |
| `Scenarios.OrderSingleScenario` | pkg/ui/ui_test.go:43-49 | a single name that is current orders as itself |
| `Scenarios.OrderCurrentFirstScenario` | pkg/ui/ui_test.go:57-63 | with current alpha, the list alpha, beta, gamma, delta orders as alpha, beta, delta, gamma |
| `Scenarios.OrderEmptyCurrentScenario` | pkg/ui/ui_test.go:64-70 | an empty current name with prioritising on leaves the plain ascending order |
| `Scenarios.OrderEmptyScenario` | pkg/ui/ui_test.go:29-35 | the empty list orders as the empty list |
| `Scenarios.OrderCurrentLastScenario` | pkg/ui/ui_test.go:50-56 | with current delta, the list alpha, beta, gamma, delta orders as delta, alpha, beta, gamma |

## Left out

- Loading and saving the file (`clientcmd.LoadFromFile`, `clientcmd.WriteToFile`) are foreign file I/O. They become the document before (the `Config` constructor) and the document after (the object when a method returns). Load and save failures, and how the file is serialized, are not modelled.
- `GetKubeConfigPath` reads the environment. `KubeConfigPath` takes the `KUBECONFIG` and `HOME` values as parameters.
- KubeConfigPath: `filepath.Join` cleans `..`, `.` and repeated separators inside HOME. The model only avoids a doubled separator at the join, and takes HOME as already clean.
- The live cluster call in `GetNamespacesForContext` (client configuration, client construction, the listing request) becomes the `ClusterAccess` parameter. It stands for one of the three failures or the names listed. The loop that copies names out of the response is that parameter's `names`.
- `static.FallBackNamespace` lives in `pkg/static`, which is not part of this model. `FallbackNamespaces` uses the four commonly known default namespaces, in an order the model does not know to be the source's.
- Go strings may hold bytes that are not valid UTF-8. The model's strings are sequences of characters, so such strings cannot be represented, and their byte order is not modelled.
- The map values of the source's maps are pointers, and `SetNamespaceForContext` writes the namespace through the pointer. The model stores context records by value and replaces the map entry. This is the same as long as no two names share one record, which a freshly loaded document never has. Nil map entries are not modelled.
- Cluster and auth-info entries carry only a server and a token string. Their other fields are never read or changed by the core.
- `GetContexts`, `GetCurrentContext` and `GetKubeConfig` only return what was loaded, and are not modelled separately (they are `Config`'s fields and the constructor).
- `sort.Strings` is Go's pattern-defeating quicksort. `SortStrings` is an insertion sort with the same result: `SortedUnique` shows that a sorted permutation is unique.
- The splice `append(sorted[:i], sorted[i+1:]...)` and then the prepend `append([]string{current}, sorted...)` is modelled as an in-place shift of `sorted[0..i]` in `MoveToFront`. It gives the same sequence. Which backing array the result lives in is not modelled.
- The empty case of `SortContexts`/`SortNamespaces` returns the caller's own slice. The model returns the sequence value, so the aliasing is not modelled.
- All coloured printing, `PrintNote`, the `promptui` selector construction and templates, and `ConfirmAction` are presentation. `PrintNote` in the sort and cursor code is modelled only as the returned `notFound`/`note` flag.
- Everything under `cmd/` is command wiring, interactive prompts and `os.Exit`. `getContextPosition` and `getNamespacePosition` repeat the cursor loop modelled as `CursorPosition`.
- Two processes editing the same file can race, and the last writer wins. The model is sequential.
- The ui test case with the four Kubernetes namespace names is not replayed as a lemma. Comparing its long literal strings character by character is too costly for the verifier. The general `Order` contract covers it.
