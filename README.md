# WanAndroid list loading, modelled in Dafny

This project models the paginated list loading behind three screens of the WanAndroid Compose
client: the home feed, the project tab and the square ("tree") tab. It covers four layers:

- The three view models: `HomeViewModel`, `ProjectViewModel` and `TreeViewModel`. Each holds a
  three-way screen state (`Loading | Success | Error(message)`), one or more item lists, a page
  cursor and, for the project and tree tabs, the selected category or sub-tab.
- The three repositories. Each one turns the client's answer into a `kotlin.Result`.
- The two wire envelopes `ApiResponse` and `ApiPagerResponse`.
- The display helpers of `Article` and `ProjectResponse`.

How it is modelled:

- The HTTP client is not modelled. What it answers is an input: a value of `ApiClient.ApiService`
  gives, for every endpoint (and every page or category argument), either the decoded envelope
  or the exception the call threw. Every view-model operation takes the client's answers as a
  parameter.
- Each `viewModelScope.launch { ... }` body is one atomic step.
- Every view model is a `class` with the source's fields. Each method is proved to leave the
  fields equal to a pure function of the old fields (`AfterLoadSquareData` and so on). Those
  functions carry the per-call contracts.
- Lemmas over arbitrary sequences of calls (`Run`) state the invariants. Lemmas over repeated
  load-more calls state the pagination protocol: every loaded page is appended in order, and the
  cursor counts the pages that loaded (`Paging.PagesLoaded`).

Files: `results.dfy` (nullable values, exceptions, `Result`, `ifEmpty`), `api_model.dfy`,
`articles.dfy`, `projects.dfy`, `tree_models.dfy`, `api_client.dfy`, the three repositories,
`view_state.dfy`, `paging.dfy` and the three view models.

The model keeps these details exactly as the code has them, though one might expect otherwise:

- A failed `load` does not clear the list. It only sets `Error`.
- The tree tab's `loadSystemData` and `loadNavigationData` keep the shared page cursor.
- The tree and project load-more calls increment the cursor first and decrement it on failure.
  The home load-more increments only on success.
- The home feed fetches banners and articles one after the other, not in parallel.
- A failed load-more never changes the screen state.

## Model

| member | source | states |
|---|---|---|
| Results.Option.GetOr | app/src/main/java/com/zt/wanandroid/data/repository/TreeRepository.kt:22 | the elvis operator `data ?: emptyList()`: the value when present, else the fallback |
| Results.Exception.MessageOr | app/src/main/java/com/zt/wanandroid/ui/tree/viewmodel/TreeViewModel.kt:67 | `error.message ?: fallback`: the exception's message when it has one, else the fallback |
| ViewState.FailureState | app/src/main/java/com/zt/wanandroid/ui/tree/viewmodel/TreeViewModel.kt:66-68 | a failure always shows `Error`, with the exception's message, or "加载失败" when it has none |
| Text.IfEmpty | app/src/main/java/com/zt/wanandroid/ui/home/model/Article.kt:34 | `ifEmpty`: a non-empty string is kept, an empty one is replaced by the fallback |
| ApiModel.IsSuccessOnlyByCode | app/src/main/java/com/zt/wanandroid/data/model/ApiResponse.kt:8-19 | `isSuccess()` holds iff `errorCode == 0`; every negative code fails; neither `data` nor `errorMsg` affects it |
| ApiModel.PagerOf | app/src/main/java/com/zt/wanandroid/data/model/ApiPagerResponse.kt:9-23 | an envelope built from `datas` alone has every counter 0 and `over = false`, so it is a refresh and has more |
| ApiModel.IsEmpty | app/src/main/java/com/zt/wanandroid/data/model/ApiPagerResponse.kt:29 | for a list payload, `isEmpty()` is that list's emptiness; any other payload counts as empty |
| ApiModel.PagerFlagsOnlyByOverAndOffset | app/src/main/java/com/zt/wanandroid/data/model/ApiPagerResponse.kt:34-39 | `hasMore()` is exactly `!over` and `isRefresh()` is exactly `offset == 0`; no other field matters |
| ApiModel.DatasOrEmpty | app/src/main/java/com/zt/wanandroid/data/repository/TreeRepository.kt:44 | `data?.datas ?: emptyList()`: the page's items, or empty for a null payload |
| ProjectRepository.ProjectsOrEmpty | app/src/main/java/com/zt/wanandroid/data/repository/ProjectRepository.kt:37 | `data?.datas ?: emptyList()` for a project page: its projects, or empty for a null payload |
| Articles.Article.AuthorName | app/src/main/java/com/zt/wanandroid/ui/home/model/Article.kt:33-35 | the author, else the sharing user, else "匿名"; never empty |
| Articles.Article.CategoryName | app/src/main/java/com/zt/wanandroid/ui/home/model/Article.kt:40-46 | "super · chapter" when both names are set, else whichever is set (chapter name first); empty iff both are empty; starts with the super-chapter name |
| Projects.ProjectResponse.AuthorName | app/src/main/java/com/zt/wanandroid/ui/project/model/ProjectResponse.kt:37-39 | the author, else the sharing user, else "匿名"; never empty |
| Projects.DefaultProjectListResponse | app/src/main/java/com/zt/wanandroid/ui/project/model/ProjectResponse.kt:45-60 | the default project page has empty `datas`, `over = false` and every counter 0 |
| TreeRepository.GetSystemData | app/src/main/java/com/zt/wanandroid/data/repository/TreeRepository.kt:18-29 | success iff the server answered with code 0, carrying `data` or the empty list if it is null; otherwise a failure with `errorMsg`, or the client's own exception, never a throw |
| TreeRepository.GetSquareDataFirstPage | app/src/main/java/com/zt/wanandroid/data/repository/TreeRepository.kt:34 | `getSquareData()` is `getSquareData(0)` |
| TreeRepository.GetSquareData | app/src/main/java/com/zt/wanandroid/data/repository/TreeRepository.kt:40-51 | success iff the answer for the given page has code 0; the result is that page's `datas` in server order, or empty for a null payload; otherwise `errorMsg` or the client's exception |
| TreeRepository.GetNavigationData | app/src/main/java/com/zt/wanandroid/data/repository/TreeRepository.kt:56-67 | as `GetSystemData`, for the navigation groups |
| TreeRepository.GetAskData | app/src/main/java/com/zt/wanandroid/data/repository/TreeRepository.kt:72-83 | as `GetSquareData`, for the daily-question pages |
| TreeRepository.SquareAnswerOnlyByRequestedPage | app/src/main/java/com/zt/wanandroid/data/repository/TreeRepository.kt:40-51 | a square page depends only on the client's answer for the requested page, which is forwarded unchanged |
| TreeRepository.AskAnswerOnlyByRequestedPage | app/src/main/java/com/zt/wanandroid/data/repository/TreeRepository.kt:72-83 | a daily-question page depends only on the client's answer for the requested page, which is forwarded unchanged |
| HomeRepository.GetBanners | app/src/main/java/com/zt/wanandroid/data/repository/HomeRepository.kt:19-30 | success iff code 0 and non-null `data`, carrying the list as sent; code 0 with null `data` fails with `errorMsg`; an exception becomes a failure |
| HomeRepository.GetArticleList | app/src/main/java/com/zt/wanandroid/data/repository/HomeRepository.kt:36-47 | success iff code 0 and non-null `data` for the given page, carrying exactly `data.datas`; otherwise `errorMsg` or the client's exception |
| HomeRepository.GetTopArticles | app/src/main/java/com/zt/wanandroid/data/repository/HomeRepository.kt:52-63 | as `GetBanners`, for the pinned articles |
| ProjectRepository.GetProjectClassify | app/src/main/java/com/zt/wanandroid/data/repository/ProjectRepository.kt:17-28 | success iff code 0, carrying `data` or the empty list; otherwise `errorMsg` or the client's exception |
| ProjectRepository.GetProjectList | app/src/main/java/com/zt/wanandroid/data/repository/ProjectRepository.kt:33-44 | success iff the answer for (page, cid) has code 0, carrying that page's projects or empty; otherwise `errorMsg` or the client's exception |
| ProjectRepository.GetNewProjectList | app/src/main/java/com/zt/wanandroid/data/repository/ProjectRepository.kt:49-60 | as `GetProjectList`, for the newest projects of the given page |
| Paging.PagesLoaded | app/src/main/java/com/zt/wanandroid/ui/tree/viewmodel/TreeViewModel.kt:137-150 | the pages a run of load-more calls obtains; a run never loads more pages than it has calls |
| TreeScreen.AfterLoadSquareData | app/src/main/java/com/zt/wanandroid/ui/tree/viewmodel/TreeViewModel.kt:55-71 | mode 0, page 0; `Success` iff page 0 was accepted, and then the square list is exactly that page; otherwise `Error(message or "加载失败")` and the list is kept; the other lists never change |
| TreeScreen.AfterLoadAskData | app/src/main/java/com/zt/wanandroid/ui/tree/viewmodel/TreeViewModel.kt:76-92 | mode 1, page 1; `Success` iff page 1 was accepted, replacing the question list; otherwise `Error` and the list is kept; other lists untouched |
| TreeScreen.AfterLoadSystemData | app/src/main/java/com/zt/wanandroid/ui/tree/viewmodel/TreeViewModel.kt:97-112 | mode 2, the page cursor kept; only the system list can change, and only on success |
| TreeScreen.AfterLoadNavigationData | app/src/main/java/com/zt/wanandroid/ui/tree/viewmodel/TreeViewModel.kt:117-132 | mode 3, the page cursor kept; only the navigation list can change, and only on success |
| TreeScreen.AfterLoadMoreSquareData | app/src/main/java/com/zt/wanandroid/ui/tree/viewmodel/TreeViewModel.kt:137-150 | requests page old+1; success appends it and leaves the cursor at old+1; failure leaves the whole state unchanged (cursor restored); `uiState` never changes |
| TreeScreen.AfterLoadMoreAskData | app/src/main/java/com/zt/wanandroid/ui/tree/viewmodel/TreeViewModel.kt:155-168 | the same for the question list |
| TreeScreen.AfterRefresh | app/src/main/java/com/zt/wanandroid/ui/tree/viewmodel/TreeViewModel.kt:173-180 | runs the load of the tab `currentMode` names, with its result as that load's: square, questions, system or navigation; page 0 for square, 1 for questions, unchanged for the rest; a mode outside 0..3 does nothing |
| TreeScreen.FailedLoadKeepsLists | app/src/main/java/com/zt/wanandroid/ui/tree/viewmodel/TreeViewModel.kt:55-132 | every failed load ends in `Error` with all four lists unchanged |
| TreeScreen.RunKeepsSane | app/src/main/java/com/zt/wanandroid/ui/tree/viewmodel/TreeViewModel.kt:42-180 | after any sequence of operations the mode is 0..3, the cursor is never negative and never below 1 on the question tab |
| TreeScreen.FreshStateSane | app/src/main/java/com/zt/wanandroid/ui/tree/viewmodel/TreeViewModel.kt:17-50 | the state a fresh view model reaches after `init` runs `loadSquareData()` is sane |
| TreeScreen.LoadMoreSquareAppendsPages | app/src/main/java/com/zt/wanandroid/ui/tree/viewmodel/TreeViewModel.kt:137-150 | after k square load-mores the list is the old list followed by the loaded pages in order (no dedup), the cursor advanced by their number, nothing else changed |
| TreeScreen.LoadMoreAskAppendsPages | app/src/main/java/com/zt/wanandroid/ui/tree/viewmodel/TreeViewModel.kt:155-168 | the same for the question list |
| TreeScreen.TreeViewModel.constructor | app/src/main/java/com/zt/wanandroid/ui/tree/viewmodel/TreeViewModel.kt:17-50 | starts at `Loading`, empty lists, page 0, mode 0, then runs `loadSquareData` |
| TreeScreen.TreeViewModel.LoadSquareData | app/src/main/java/com/zt/wanandroid/ui/tree/viewmodel/TreeViewModel.kt:55-71 | updates the fields in place exactly as `AfterLoadSquareData` |
| TreeScreen.TreeViewModel.LoadAskData | app/src/main/java/com/zt/wanandroid/ui/tree/viewmodel/TreeViewModel.kt:76-92 | updates the fields in place exactly as `AfterLoadAskData` |
| TreeScreen.TreeViewModel.LoadSystemData | app/src/main/java/com/zt/wanandroid/ui/tree/viewmodel/TreeViewModel.kt:97-112 | updates the fields in place exactly as `AfterLoadSystemData` |
| TreeScreen.TreeViewModel.LoadNavigationData | app/src/main/java/com/zt/wanandroid/ui/tree/viewmodel/TreeViewModel.kt:117-132 | updates the fields in place exactly as `AfterLoadNavigationData` |
| TreeScreen.TreeViewModel.LoadMoreSquareData | app/src/main/java/com/zt/wanandroid/ui/tree/viewmodel/TreeViewModel.kt:137-150 | increments, fetches, appends or decrements in place; ends as `AfterLoadMoreSquareData` |
| TreeScreen.TreeViewModel.LoadMoreAskData | app/src/main/java/com/zt/wanandroid/ui/tree/viewmodel/TreeViewModel.kt:155-168 | increments, fetches, appends or decrements in place; ends as `AfterLoadMoreAskData` |
| TreeScreen.TreeViewModel.Refresh | app/src/main/java/com/zt/wanandroid/ui/tree/viewmodel/TreeViewModel.kt:173-180 | dispatches on `currentMode`; ends as `AfterRefresh` |
| ProjectScreen.AfterLoadProjectList | app/src/main/java/com/zt/wanandroid/ui/project/viewmodel/ProjectViewModel.kt:71-87 | `currentCid = cid`, page 1; `Success` iff page 1 of that category was accepted, replacing the project list; otherwise `Error` and the list is kept; categories untouched |
| ProjectScreen.AfterLoadNewProjects | app/src/main/java/com/zt/wanandroid/ui/project/viewmodel/ProjectViewModel.kt:92-108 | `currentCid = -1`, page 0; `Success` iff page 0 of the newest projects was accepted, replacing the list; otherwise `Error` and the list is kept |
| ProjectScreen.AfterLoadProjectClassify | app/src/main/java/com/zt/wanandroid/ui/project/viewmodel/ProjectViewModel.kt:45-66 | a failure changes only the screen state; success replaces the categories, then loads the first category as `loadProjectList` does, or goes to `Success` when there are none |
| ProjectScreen.MoreSource | app/src/main/java/com/zt/wanandroid/ui/project/viewmodel/ProjectViewModel.kt:117-121 | load-more pages come from the newest projects iff `currentCid == -1`, otherwise from category `currentCid` |
| ProjectScreen.AfterLoadMoreProjects | app/src/main/java/com/zt/wanandroid/ui/project/viewmodel/ProjectViewModel.kt:113-132 | requests page old+1 from that source; success appends it in order, failure leaves the whole state unchanged; `uiState` never changes |
| ProjectScreen.AfterRefresh | app/src/main/java/com/zt/wanandroid/ui/project/viewmodel/ProjectViewModel.kt:137-143 | runs `loadNewProjects` for -1 and `loadProjectList(currentCid)` otherwise, with that load's result; keeps the category; page 0 of the newest projects for -1, else page 1 of the category |
| ProjectScreen.FailedLoadKeepsLists | app/src/main/java/com/zt/wanandroid/ui/project/viewmodel/ProjectViewModel.kt:45-108 | every failed load ends in `Error` with both lists unchanged |
| ProjectScreen.RunKeepsSane | app/src/main/java/com/zt/wanandroid/ui/project/viewmodel/ProjectViewModel.kt:33-143 | after any sequence of operations the cursor is never negative and never below 1 while a category is selected |
| ProjectScreen.FreshStateSane | app/src/main/java/com/zt/wanandroid/ui/project/viewmodel/ProjectViewModel.kt:16-40 | the declared initial fields are sane, and so is the state after `init` runs `loadProjectClassify()` |
| ProjectScreen.LoadMoreAppendsPages | app/src/main/java/com/zt/wanandroid/ui/project/viewmodel/ProjectViewModel.kt:113-132 | after k load-mores the list is the old list followed by the loaded pages of the current source in order, the cursor advanced by their number |
| ProjectScreen.ProjectViewModel.constructor | app/src/main/java/com/zt/wanandroid/ui/project/viewmodel/ProjectViewModel.kt:16-40 | starts at `Loading`, empty lists, page 0, cid -1, then runs `loadProjectClassify` |
| ProjectScreen.ProjectViewModel.LoadProjectClassify | app/src/main/java/com/zt/wanandroid/ui/project/viewmodel/ProjectViewModel.kt:45-66 | the category step, then the list step for the first category, in place; ends as `AfterLoadProjectClassify` |
| ProjectScreen.ProjectViewModel.LoadProjectList | app/src/main/java/com/zt/wanandroid/ui/project/viewmodel/ProjectViewModel.kt:71-87 | updates the fields in place exactly as `AfterLoadProjectList` |
| ProjectScreen.ProjectViewModel.LoadNewProjects | app/src/main/java/com/zt/wanandroid/ui/project/viewmodel/ProjectViewModel.kt:92-108 | updates the fields in place exactly as `AfterLoadNewProjects` |
| ProjectScreen.ProjectViewModel.LoadMoreProjects | app/src/main/java/com/zt/wanandroid/ui/project/viewmodel/ProjectViewModel.kt:113-132 | increments, picks the source, appends or decrements in place; ends as `AfterLoadMoreProjects` |
| ProjectScreen.ProjectViewModel.Refresh | app/src/main/java/com/zt/wanandroid/ui/project/viewmodel/ProjectViewModel.kt:137-143 | dispatches on `currentCid`; ends as `AfterRefresh` |
| HomeScreen.AfterLoadHomeData | app/src/main/java/com/zt/wanandroid/ui/home/viewmodel/HomeViewModel.kt:42-64 | `Success` iff banners and page 0 were both accepted with data, and then both lists are replaced and the cursor reset to 0; otherwise only the screen state changes, to the banners' error if they failed, else the articles' (default "加载失败"); an escaping exception gives `Error(message or "未知错误")` |
| HomeScreen.AfterLoadMoreArticles | app/src/main/java/com/zt/wanandroid/ui/home/viewmodel/HomeViewModel.kt:69-82 | requests page old+1; only a success appends it and increments the cursor; a failure or an exception changes nothing |
| HomeScreen.RunKeepsPageNonNegative | app/src/main/java/com/zt/wanandroid/ui/home/viewmodel/HomeViewModel.kt:33-89 | the cursor is never negative after any sequence of operations, since it is only set to 0 or incremented |
| HomeScreen.LoadMoreAppendsPages | app/src/main/java/com/zt/wanandroid/ui/home/viewmodel/HomeViewModel.kt:69-82 | after k load-mores the list is the old list followed by the loaded pages in order, and the cursor counts exactly those pages |
| HomeScreen.HomeViewModel.constructor | app/src/main/java/com/zt/wanandroid/ui/home/viewmodel/HomeViewModel.kt:16-37 | starts at `Loading`, empty lists, page 0, then runs `loadHomeData` |
| HomeScreen.HomeViewModel.LoadHomeData | app/src/main/java/com/zt/wanandroid/ui/home/viewmodel/HomeViewModel.kt:42-64 | updates the fields in place exactly as `AfterLoadHomeData` |
| HomeScreen.HomeViewModel.LoadMoreArticles | app/src/main/java/com/zt/wanandroid/ui/home/viewmodel/HomeViewModel.kt:69-82 | updates the fields in place exactly as `AfterLoadMoreArticles` |
| HomeScreen.HomeViewModel.Refresh | app/src/main/java/com/zt/wanandroid/ui/home/viewmodel/HomeViewModel.kt:87-89 | `refresh()` ends exactly as `loadHomeData()` |

## Left out

- Kotlin `Int` is modelled as an unbounded integer. The page cursors, ids and error codes are 32-bit in the source, so `currentPage++` would wrap at `Int.MAX_VALUE` after 2^31-1 successful load-more calls. The model does not capture this wrap.
- TreeScreen.RunKeepsSane: holds for the unbounded cursor; with 32-bit wrap-around it would fail past `Int.MAX_VALUE` successful load-mores.
- ProjectScreen.RunKeepsSane: as above, the bound assumes no 32-bit wrap-around of the cursor.
- HomeScreen.RunKeepsPageNonNegative: as above, "never negative" assumes no 32-bit wrap-around.
- Coroutines are left out: `viewModelScope.launch`, `withContext(Dispatchers.IO)`, overlapping launches and their races, and cancellation. Each launch body is one atomic step. So is `loadProjectClassify` together with the `loadProjectList` it launches: the nested step runs after the category step, as sequential composition.
- Cancellation inside a view model's launch body, between its assignments, is not modelled. A `CancellationException` thrown by a client call is caught by the repository's `catch (e: Exception)` and becomes a failure. The `Threw` input covers that case.
- HomeScreen.AfterLoadHomeData: the exception that reaches the home view model's `catch` is an input (`interrupted`). The repositories catch every exception themselves, so in the source only something like cancellation surfacing from `withContext` can reach it.
- The HTTP client, its configuration and JSON decoding (Retrofit, OkHttp, Gson) are left out. A client answer is the input `ApiService`. Gson can store null in a field Kotlin declares non-null; that is not modelled, and every non-null field holds a value.
- The `StateFlow` wrappers are left out. Each field is the value its flow currently holds; observation by the UI is not modelled.
- The Compose UI is left out: all pages, the banner auto-rotation timer, navigation, toasts and snackbars, and the random colour helper. These are rendering, timers, randomness and Android calls.
- Two record fields are renamed because they are Dafny keywords. `Article.fresh` is `isFresh` and `BannerResponse.type` is `kind`.
- `ClassifyResponse.children` is nullable. It is the datatype `ChildCategories` (`NoChildren` for null).
